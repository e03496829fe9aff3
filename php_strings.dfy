/** The PHP string primitives the helper relies on: `explode` and `str_replace` of one character. */
module PhpStrings {

  /** PHP `explode(d, s)` for a one-character delimiter: the pieces between delimiters.
      It always yields at least one piece; `explode('|', "")` is `[""]`. */
  function Explode(s: string, d: char): (r: seq<string>)
    ensures |r| >= 1
  {
    if s == [] then [""]
    else if s[0] == d then [""] + Explode(s[1..], d)
    else
      var rest := Explode(s[1..], d);
      [[s[0]] + rest[0]] + rest[1..]
  }

  /** PHP `implode(d, parts)`: the pieces joined by the delimiter. */
  function Implode(parts: seq<string>, d: char): string
    requires |parts| >= 1
  {
    if |parts| == 1 then parts[0] else parts[0] + [d] + Implode(parts[1..], d)
  }

  /** No piece contains the delimiter. */
  lemma {:induction false} ExplodePiecesLackDelimiter(s: string, d: char)
    ensures forall i :: 0 <= i < |Explode(s, d)| ==> d !in Explode(s, d)[i]
  {
    if s != [] {
      ExplodePiecesLackDelimiter(s[1..], d);
    }
  }

  /** Joining the pieces back gives the original string. */
  lemma {:induction false} ImplodeExplode(s: string, d: char)
    ensures Implode(Explode(s, d), d) == s
  {
    if s == [] {
    } else if s[0] == d {
      ImplodeExplode(s[1..], d);
      assert Explode(s, d)[1..] == Explode(s[1..], d);
    } else {
      var rest := Explode(s[1..], d);
      ImplodeExplode(s[1..], d);
      var r := Explode(s, d);
      assert r[1..] == rest[1..];
      if |rest| == 1 {
        assert Implode(r, d) == [s[0]] + rest[0];
      } else {
        assert Implode(rest, d) == rest[0] + [d] + Implode(rest[1..], d);
        assert Implode(r, d) == ([s[0]] + rest[0]) + [d] + Implode(rest[1..], d);
      }
      assert s == [s[0]] + s[1..];
    }
  }

  /** A string without the delimiter is one piece. */
  lemma {:induction false} ExplodeNoDelimiter(s: string, d: char)
    requires d !in s
    ensures Explode(s, d) == [s]
  {
    if s != [] {
      assert d !in s[1..];
      ExplodeNoDelimiter(s[1..], d);
      assert s == [s[0]] + s[1..];
    }
  }

  /** One step of splitting: a delimiter starts a new piece, any other character
      extends the first piece. */
  lemma ExplodeCons(c: char, t: string, d: char)
    ensures Explode([c] + t, d) ==
      if c == d then [""] + Explode(t, d)
      else [[c] + Explode(t, d)[0]] + Explode(t, d)[1..]
  {
    assert ([c] + t)[0] == c && ([c] + t)[1..] == t;
  }

  lemma ExtendFirstPiece(c: char, ra: seq<string>, rb: seq<string>)
    requires |ra| >= 1
    ensures [[c] + (ra + rb)[0]] + (ra + rb)[1..] == ([[c] + ra[0]] + ra[1..]) + rb
  {
    assert (ra + rb)[0] == ra[0];
    assert (ra + rb)[1..] == ra[1..] + rb;
  }

  /** A delimiter splits the pieces of what stands on its two sides. */
  lemma {:induction false} ExplodeConcat(a: string, b: string, d: char)
    ensures Explode(a + [d] + b, d) == Explode(a, d) + Explode(b, d)
  {
    if a == [] {
      assert a + [d] + b == [d] + b;
      ExplodeCons(d, b, d);
    } else {
      var c, a' := a[0], a[1..];
      assert a == [c] + a';
      assert a + [d] + b == [c] + (a' + [d] + b);
      ExplodeConcat(a', b, d);
      ExplodeCons(c, a' + [d] + b, d);
      ExplodeCons(c, a', d);
      if c != d {
        ExtendFirstPiece(c, Explode(a', d), Explode(b, d));
      }
    }
  }

  /** Splitting the join of delimiter-free pieces gives the pieces back. */
  lemma {:induction false} ExplodeImplode(parts: seq<string>, d: char)
    requires |parts| >= 1
    requires forall i :: 0 <= i < |parts| ==> d !in parts[i]
    ensures Explode(Implode(parts, d), d) == parts
  {
    ExplodeNoDelimiter(parts[0], d);
    if |parts| > 1 {
      ExplodeImplode(parts[1..], d);
      ExplodeConcat(parts[0], Implode(parts[1..], d), d);
      assert parts == [parts[0]] + parts[1..];
    }
  }

  /** PHP `str_replace(c, '', s)` for a one-character needle: `s` with every `c` deleted. */
  function RemoveChar(s: string, c: char): (r: string)
    ensures c !in r
    ensures |r| <= |s|
    ensures forall x :: x in r ==> x in s
  {
    if s == [] then []
    else if s[0] == c then RemoveChar(s[1..], c)
    else [s[0]] + RemoveChar(s[1..], c)
  }

  /** Deleting distributes over concatenation. */
  lemma {:induction false} RemoveCharConcat(a: string, b: string, c: char)
    ensures RemoveChar(a + b, c) == RemoveChar(a, c) + RemoveChar(b, c)
  {
    if a == [] {
      assert a + b == b;
    } else {
      assert (a + b)[0] == a[0] && (a + b)[1..] == a[1..] + b;
      RemoveCharConcat(a[1..], b, c);
    }
  }

  /** A string without the character is left unchanged, so deleting twice is deleting once. */
  lemma {:induction false} RemoveCharAbsent(s: string, c: char)
    requires c !in s
    ensures RemoveChar(s, c) == s
  {
    if s != [] {
      assert c !in s[1..];
      RemoveCharAbsent(s[1..], c);
      assert s == [s[0]] + s[1..];
    }
  }
}
