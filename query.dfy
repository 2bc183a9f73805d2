/**
  Reading a query string back: pieces separated by '&', each cut at its first
  '=' into a key and a value, both unescaped: a reader in the manner of
  url.ParseQuery, exact on query strings written by EncodePairs. This is the
  reference against which the detail link built for a message is checked.
 */
module Query {
  import opened Bytes
  import opened Wrappers
  import opened QueryEscape

  /** The pieces of s between occurrences of sep (strings.Split). */
  function Split(s: Bytes, sep: byte): (r: seq<Bytes>)
    ensures |r| >= 1
    ensures forall k | 0 <= k < |r| :: sep !in r[k]
  {
    if s == [] then [[]]
    else
      var rest := Split(s[1..], sep);
      if s[0] == sep then [[]] + rest
      else [[s[0]] + rest[0]] + rest[1..]
  }

  /** Splitting a string that starts with a piece free of sep, then sep. */
  lemma {:induction false} SplitAfter(a: Bytes, sep: byte, b: Bytes)
    requires sep !in a
    ensures Split(a + [sep] + b, sep) == [a] + Split(b, sep)
  {
    if a != [] {
      SplitAfter(a[1..], sep, b);
      assert (a + [sep] + b)[1..] == a[1..] + [sep] + b;
      assert [a[0]] + a[1..] == a;
    } else {
      assert ([] + [sep] + b)[1..] == b;
    }
  }

  lemma {:induction false} SplitWhole(a: Bytes, sep: byte)
    requires sep !in a
    ensures Split(a, sep) == [a]
  {
    if a != [] {
      SplitWhole(a[1..], sep);
      assert [a[0]] + a[1..] == a;
    }
  }

  /** strings.Cut: the bytes before the first sep and those after it, or the
      whole string and an empty value when sep does not occur. */
  function Cut(s: Bytes, sep: byte): (r: (Bytes, Bytes))
    ensures sep !in r.0
    ensures sep in s ==> r.0 + [sep] + r.1 == s
    ensures sep !in s ==> r == (s, [])
  {
    if s == [] then ([], [])
    else if s[0] == sep then ([], s[1..])
    else
      var kv := Cut(s[1..], sep);
      assert [s[0]] + s[1..] == s;
      ([s[0]] + kv.0, kv.1)
  }

  /** Cutting a string whose first sep follows a sep-free prefix. */
  lemma {:induction false} CutAt(a: Bytes, sep: byte, b: Bytes)
    requires sep !in a
    ensures Cut(a + [sep] + b, sep) == (a, b)
  {
    if a != [] {
      CutAt(a[1..], sep, b);
      assert (a + [sep] + b)[1..] == a[1..] + [sep] + b;
      assert [a[0]] + a[1..] == a;
    } else {
      assert ([] + [sep] + b)[1..] == b;
    }
  }

  /** Each "key=value" piece, key and value unescaped; None if any fails to unescape. */
  function ParsePairs(pieces: seq<Bytes>): (r: Option<seq<(Bytes, Bytes)>>)
  {
    if pieces == [] then Some([])
    else
      var kv := Cut(pieces[0], Equals);
      var key, value, rest := Unescape(kv.0), Unescape(kv.1), ParsePairs(pieces[1..]);
      if key.Some? && value.Some? && rest.Some? then Some([(key.value, value.value)] + rest.value)
      else None
  }

  function ParseQuery(q: Bytes): (r: Option<seq<(Bytes, Bytes)>>) {
    ParsePairs(Split(q, Amp))
  }

  /** The pairs in the given order, each written key=QueryEscape(value), joined
      by '&'; keys are written as they are (url.Values.Encode would also sort
      and escape the keys). */
  function EncodePairs(pairs: seq<(Bytes, Bytes)>): (r: Bytes)
    requires |pairs| >= 1
  {
    var head := pairs[0].0 + [Equals] + Escape(pairs[0].1);
    if |pairs| == 1 then head else head + [Amp] + EncodePairs(pairs[1..])
  }

  /** One encoded pair: free of '&', and read back as the same key and value
      in front of whatever the following pieces read back as. */
  lemma ParsePair(key: Bytes, value: Bytes, rest: seq<Bytes>)
    requires forall i | 0 <= i < |key| :: Unreserved(key[i])
    ensures Amp !in key + [Equals] + Escape(value)
    ensures ParsePairs([key + [Equals] + Escape(value)] + rest)
         == if ParsePairs(rest).Some? then Some([(key, value)] + ParsePairs(rest).value) else None
  {
    var head := key + [Equals] + Escape(value);
    assert Amp !in head by {
      assert forall i | 0 <= i < |head| :: head[i] == Equals || Unreserved(head[i]) || head[i] == Plus || head[i] == Percent;
    }
    assert Equals !in key by {
      assert forall i | 0 <= i < |key| :: Unreserved(key[i]);
    }
    CutAt(key, Equals, Escape(value));
    EscapeUnreserved(key);
    UnescapeEscape(key);
    UnescapeEscape(value);
    var pieces := [head] + rest;
    assert pieces[0] == head && pieces[1..] == rest;
  }

  /** Keys that need no escaping, values that are anything at all: the
      encoded query parses back into exactly the same pairs, in order. */
  lemma {:induction false} ParseEncodePairs(pairs: seq<(Bytes, Bytes)>)
    requires |pairs| >= 1
    requires forall j, i | 0 <= j < |pairs| && 0 <= i < |pairs[j].0| :: Unreserved(pairs[j].0[i])
    ensures ParseQuery(EncodePairs(pairs)) == Some(pairs)
  {
    var key, value := pairs[0].0, pairs[0].1;
    var head := key + [Equals] + Escape(value);
    if |pairs| == 1 {
      ParsePair(key, value, []);
      SplitWhole(head, Amp);
      assert [head] + [] == [head];
      assert [(key, value)] + [] == pairs;
    } else {
      var tail := EncodePairs(pairs[1..]);
      ParseEncodePairs(pairs[1..]);
      ParsePair(key, value, Split(tail, Amp));
      SplitAfter(head, Amp, tail);
      assert [pairs[0]] + pairs[1..] == pairs;
    }
  }
}
