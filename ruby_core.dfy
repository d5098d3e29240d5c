/**
 The few pieces of Ruby's core library that `vault_hiera_hash` relies on:
 the values an options hash can hold, `Hash#[]`, `#empty?`, `String#strip`
 and `String#delete` with a one-character argument.
 */
module RubyCore {
  import opened Wrappers

  /** A Ruby object, as far as this model needs to tell objects apart. */
  datatype Value =
    | Nil
    | Bool(b: bool)
    | Int(i: int)
    | Str(s: string)
    | Sym(name: string)
    | Arr(elems: seq<Value>)
    | Hash(entries: map<Value, Value>)

  /** A Ruby hash; string keys and symbol keys are different keys. */
  type Options = map<Value, Value>

  /** `h[key]` on a hash without a default: the stored value, or nil when the key is absent. */
  function Get(h: Options, key: Value): (v: Value)
    ensures key in h ==> v == h[key]
    ensures key !in h ==> v == Nil
  {
    if key in h then h[key] else Nil
  }

  /**
   `v.empty?`: `None` when the object's class has no `empty?` method,
   so that calling it raises NoMethodError (nil, integers, booleans).
   */
  function IsEmpty(v: Value): (r: Option<bool>)
    ensures r.Some? <==> v.Str? || v.Sym? || v.Arr? || v.Hash?
    ensures v.Hash? ==> (r == Some(true) <==> v.entries == map[])
  {
    match v
    case Str(s) => Some(|s| == 0)
    case Sym(name) => Some(|name| == 0)
    case Arr(elems) => Some(|elems| == 0)
    case Hash(entries) => Some(|entries| == 0)
    case _ => None
  }

  /** The characters `String#strip` removes: NUL, tab, line feed, vertical tab, form feed, carriage return, space. */
  predicate IsSpace(c: char)
  {
    c == ' ' || c == '\0' || ('\t' <= c <= '\r')
  }

  /** `String#lstrip`. Its properties are in `LStripSpec`, so that callers do not carry them. */
  function LStrip(s: string): string
  {
    if s != [] && IsSpace(s[0]) then LStrip(s[1..]) else s
  }

  /** `String#rstrip`. Its properties are in `RStripSpec`. */
  function RStrip(s: string): string
  {
    if s != [] && IsSpace(s[|s| - 1]) then RStrip(s[..|s| - 1]) else s
  }

  /** `lstrip` leaves the suffix that remains after dropping the leading whitespace. */
  lemma {:induction false} LStripSpec(s: string)
    ensures var r := LStrip(s);
      && |r| <= |s| && r == s[|s| - |r|..]
      && (forall k :: 0 <= k < |s| - |r| ==> IsSpace(s[k]))
      && (r != [] ==> !IsSpace(r[0]))
    decreases |s|
  {
    if s != [] && IsSpace(s[0]) {
      LStripSpec(s[1..]);
    }
  }

  /** `rstrip` leaves the prefix that remains after dropping the trailing whitespace. */
  lemma {:induction false} RStripSpec(s: string)
    ensures var r := RStrip(s);
      && |r| <= |s| && r == s[..|r|]
      && (forall k :: |r| <= k < |s| ==> IsSpace(s[k]))
      && (r != [] ==> !IsSpace(r[|r| - 1]))
    decreases |s|
  {
    if s != [] && IsSpace(s[|s| - 1]) {
      RStripSpec(s[..|s| - 1]);
    }
  }

  /** `String#strip`. `StripIsTrim` and `TrimIsStrip` say what it computes. */
  function Strip(s: string): string
  {
    RStrip(LStrip(s))
  }

  /**
   `r` is `s` with its leading and trailing whitespace cut off: a slice of `s`
   with only whitespace outside it and no whitespace at either end of it.
   */
  ghost predicate IsTrimOf(r: string, s: string)
  {
    exists i, j :: 0 <= i <= j <= |s| && r == s[i..j] && TrimBounds(s, i, j)
  }

  /** `s[i..j]` is surrounded by whitespace only and does not start or end with whitespace. */
  ghost predicate TrimBounds(s: string, i: int, j: int)
    requires 0 <= i <= j <= |s|
  {
    && (forall k :: 0 <= k < i ==> IsSpace(s[k]))
    && (forall k :: j <= k < |s| ==> IsSpace(s[k]))
    && (i < j ==> !IsSpace(s[i]) && !IsSpace(s[j - 1]))
  }

  /** `strip` cuts off exactly the surrounding whitespace. */
  lemma StripIsTrim(s: string)
    ensures IsTrimOf(Strip(s), s)
  {
    var l := LStrip(s);
    var r := RStrip(l);
    LStripSpec(s);
    RStripSpec(l);
    var i := |s| - |l|;
    var j := i + |r|;
    assert l == s[i..];
    assert r == l[..|r|];
    assert r == s[i..j];
    forall k | j <= k < |s| ensures IsSpace(s[k]) {
      assert s[k] == l[k - i];
    }
    if i < j {
      assert s[i] == r[0] && s[j - 1] == r[|r| - 1];
    }
    assert TrimBounds(s, i, j);
  }

  /** Two trims of the same string cut out the same slice. */
  lemma TrimUnique(s: string, i: int, j: int, i': int, j': int)
    requires 0 <= i <= j <= |s| && 0 <= i' <= j' <= |s|
    requires TrimBounds(s, i, j) && TrimBounds(s, i', j')
    ensures s[i..j] == s[i'..j']
  {
  }

  /** There is only one way to trim a string, so `strip` is the trimmed string. */
  lemma TrimIsStrip(r: string, s: string)
    requires IsTrimOf(r, s)
    ensures r == Strip(s)
  {
    StripIsTrim(s);
    var i, j :| 0 <= i <= j <= |s| && r == s[i..j] && TrimBounds(s, i, j);
    var i', j' :| 0 <= i' <= j' <= |s| && Strip(s) == s[i'..j'] && TrimBounds(s, i', j');
    TrimUnique(s, i, j, i', j');
  }

  /** Stripping a stripped string changes nothing. */
  lemma StripIdempotent(s: string)
    ensures Strip(Strip(s)) == Strip(s)
  {
    var t := Strip(s);
    StripIsTrim(s);
    assert t == t[0..|t|];
    assert TrimBounds(t, 0, |t|);
    TrimIsStrip(t, t);
  }

  /** `s.delete(c)` for a one-character argument: every occurrence of `c` removed. */
  function Delete(s: string, c: char): (r: string)
    ensures c !in r
    ensures |r| <= |s|
  {
    if s == [] then [] else (if s[0] == c then [] else [s[0]]) + Delete(s[1..], c)
  }

  /** `r` can be obtained from `s` by dropping characters, keeping the rest in order. */
  predicate IsSubsequence(r: string, s: string)
    decreases |s|
  {
    if r == [] then true
    else if s == [] then false
    else if r[0] == s[0] then IsSubsequence(r[1..], s[1..])
    else IsSubsequence(r, s[1..])
  }

  lemma {:induction false} SubsequenceOfTail(r: string, s: string)
    requires s != [] && IsSubsequence(r, s[1..])
    ensures IsSubsequence(r, s)
    decreases |s|, |r|
  {
    if r != [] && r[0] == s[0] {
      SubsequenceDropHead(r, s[1..]);
    }
  }

  lemma {:induction false} SubsequenceDropHead(r: string, s: string)
    requires r != [] && IsSubsequence(r, s)
    ensures IsSubsequence(r[1..], s)
    decreases |s|, |r|
  {
    if r[1..] == [] {
    } else if r[0] == s[0] {
      SubsequenceOfTail(r[1..], s);
    } else {
      SubsequenceDropHead(r, s[1..]);
      SubsequenceOfTail(r[1..], s);
    }
  }

  /** `delete` keeps the characters it does not remove, in their original order. */
  lemma {:induction false} DeleteIsSubsequence(s: string, c: char)
    ensures IsSubsequence(Delete(s, c), s)
    decreases |s|
  {
    if s != [] {
      DeleteIsSubsequence(s[1..], c);
      var rest := Delete(s[1..], c);
      if s[0] == c {
        assert Delete(s, c) == rest;
        SubsequenceOfTail(rest, s);
      } else {
        assert Delete(s, c) == [s[0]] + rest;
        assert (Delete(s, c))[1..] == rest;
      }
    }
  }

  /** `delete` keeps every other character exactly as often as it occurs. */
  lemma {:induction false} DeleteKeepsOthers(s: string, c: char, d: char)
    requires d != c
    ensures multiset(Delete(s, c))[d] == multiset(s)[d]
    ensures multiset(Delete(s, c))[c] == 0
    decreases |s|
  {
    if s != [] {
      DeleteKeepsOthers(s[1..], c, d);
      assert s == [s[0]] + s[1..];
      assert multiset(s) == multiset([s[0]]) + multiset(s[1..]);
    }
  }

  /** Deleting from a concatenation deletes from each part. */
  lemma {:induction false} DeleteConcat(a: string, b: string, c: char)
    ensures Delete(a + b, c) == Delete(a, c) + Delete(b, c)
    decreases |a|
  {
    if a != [] {
      assert (a + b)[1..] == a[1..] + b;
      DeleteConcat(a[1..], b, c);
    } else {
      assert a + b == b;
    }
  }

  /** A string without the character is left as it is. */
  lemma {:induction false} DeleteAbsent(s: string, c: char)
    requires c !in s
    ensures Delete(s, c) == s
    decreases |s|
  {
    if s != [] {
      DeleteAbsent(s[1..], c);
      assert s == [s[0]] + s[1..];
    }
  }

  /** Deleting twice is deleting once. */
  lemma DeleteIdempotent(s: string, c: char)
    ensures Delete(Delete(s, c), c) == Delete(s, c)
  {
    DeleteAbsent(Delete(s, c), c);
  }
}
