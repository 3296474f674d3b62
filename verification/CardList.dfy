/** join_strings and split_string of src/network/message.cpp: a list of cards as one payload. */
module CardList {
  import opened Bytes

  const SLASH: byte := 47

  /** The elements of `v` with one delimiter between neighbours. */
  function Join(v: seq<Text>, d: byte): Text {
    if v == [] then [] else if |v| == 1 then v[0] else v[0] + [d] + Join(v[1..], d)
  }

  /** The first position of `d` in `s`, or |s|. */
  function IndexOf(s: Text, d: byte): (k: nat)
    ensures k <= |s|
    ensures d !in s[..k]
    ensures k < |s| ==> s[k] == d
  {
    if s == [] || s[0] == d then 0
    else
      var k := 1 + IndexOf(s[1..], d);
      assert s[..k] == [s[0]] + s[1..][..k - 1];
      k
  }

  /** The tokens repeated std::getline calls yield: nothing is read after a final delimiter. */
  function Split(s: Text, d: byte): seq<Text>
    decreases |s|
  {
    var k := IndexOf(s, d);
    if s == [] then [] else if k == |s| then [s] else [s[..k]] + Split(s[k + 1..], d)
  }

  // ----- the loops -----

  /** Every element followed by the delimiter: what the ostream_iterator writes. */
  function Terminated(v: seq<Text>, d: byte): Text {
    if v == [] then [] else Terminated(v[..|v| - 1], d) + v[|v| - 1] + [d]
  }

  lemma {:induction false} TerminatedHead(v: seq<Text>, d: byte)
    requires v != []
    ensures Terminated(v, d) == v[0] + [d] + Terminated(v[1..], d)
  {
    if |v| == 1 {
      assert v[..0] == [] && v[1..] == [];
    } else {
      var w, tail := v[..|v| - 1], v[1..];
      TerminatedHead(w, d);
      assert w[1..] == tail[..|tail| - 1] && tail[|tail| - 1] == v[|v| - 1];
      assert Terminated(tail, d) == Terminated(w[1..], d) + v[|v| - 1] + [d];
    }
  }

  lemma {:induction false} TerminatedIsJoin(v: seq<Text>, d: byte)
    requires v != []
    ensures Terminated(v, d) == Join(v, d) + [d]
  {
    TerminatedHead(v, d);
    if |v| == 1 {
      assert v[1..] == [];
    } else {
      TerminatedIsJoin(v[1..], d);
    }
  }

  method JoinStrings(v: seq<Text>, d: byte) returns (joined: Text)
    ensures joined == Join(v, d)
  {
    joined := [];
    for i := 0 to |v|
      invariant joined == Terminated(v[..i], d)
    {
      assert v[..i + 1][..i] == v[..i];
      joined := joined + v[i] + [d];
    }
    assert v[..|v|] == v;
    if joined != [] {
      assert v != [];
      TerminatedIsJoin(v, d);
      joined := joined[..|joined| - 1];
    } else if v != [] {
      TerminatedIsJoin(v, d);
      assert false;
    }
  }

  lemma {:induction false} IndexOfIs(s: Text, d: byte, k: nat)
    requires k <= |s| && d !in s[..k]
    requires k < |s| ==> s[k] == d
    ensures IndexOf(s, d) == k
  {
    if k > 0 {
      assert s[0] in s[..k];
      assert s[1..][..k - 1] == s[..k][1..];
      IndexOfIs(s[1..], d, k - 1);
    }
  }

  /** What one extraction removes from the front of the remaining text. */
  lemma SplitStep(s: Text, start: nat, stop: nat, d: byte)
    requires start < |s| && start <= stop <= |s| && d !in s[start..stop]
    requires stop < |s| ==> s[stop] == d
    ensures Split(s[start..], d) == [s[start..stop]] + Split(s[if stop < |s| then stop + 1 else |s|..], d)
  {
    var tail, k := s[start..], stop - start;
    assert tail[..k] == s[start..stop];
    IndexOfIs(tail, d, k);
    if stop < |s| {
      assert tail[k + 1..] == s[stop + 1..];
    } else {
      assert tail[..k] == tail && s[|s|..] == [];
    }
  }

  /** std::getline on a string stream: extraction fails when nothing is left. */
  method Getline(s: Text, start: nat, d: byte) returns (ok: bool, token: Text, next: nat)
    requires start <= |s|
    ensures ok == (start < |s|)
    ensures ok ==> start < next <= |s| && d !in token
    ensures ok ==> Split(s[start..], d) == [token] + Split(s[next..], d)
  {
    ok, token, next := start < |s|, [], start;
    while next < |s| && s[next] != d
      invariant start <= next <= |s| && token == s[start..next] && d !in token
    {
      token := token + [s[next]];
      next := next + 1;
    }
    if ok { SplitStep(s, start, next, d); }
    if next < |s| { next := next + 1; }
  }

  method SplitString(s: Text, d: byte) returns (v: seq<Text>)
    ensures v == Split(s, d)
  {
    v := [];
    var pos := 0;
    var ok, token, next := Getline(s, pos, d);
    assert s[0..] == s;
    while ok
      invariant pos <= |s| && ok == (pos < |s|)
      invariant ok ==> pos < next <= |s| && Split(s[pos..], d) == [token] + Split(s[next..], d)
      invariant Split(s, d) == v + Split(s[pos..], d)
      decreases |s| - pos
    {
      assert v + ([token] + Split(s[next..], d)) == (v + [token]) + Split(s[next..], d);
      v := v + [token];
      pos := next;
      ok, token, next := Getline(s, pos, d);
    }
    assert s[pos..] == [];
  }

  // ----- laws -----

  /** No element contains the delimiter and the last one is not empty. */
  predicate Clean(v: seq<Text>, d: byte) {
    (forall x :: x in v ==> d !in x) && (v != [] ==> v[|v| - 1] != [])
  }

  lemma {:induction false} TokensHaveNoDelimiter(s: Text, d: byte)
    ensures forall x :: x in Split(s, d) ==> d !in x
    decreases |s|
  {
    if s != [] {
      var k := IndexOf(s, d);
      assert s[..|s|] == s;
      if k < |s| { TokensHaveNoDelimiter(s[k + 1..], d); }
    }
  }

  lemma SplitHead(x: Text, rest: Text, d: byte)
    requires d !in x
    ensures Split(x + [d] + rest, d) == [x] + Split(rest, d)
  {
    var s := x + [d] + rest;
    assert s[..|x|] == x && s[|x| + 1..] == rest;
    IndexOfIs(s, d, |x|);
  }

  /** Splitting a joined list of delimiter-free elements loses an empty last element and nothing else. */
  lemma {:induction false} SplitOfJoinNoDelimiter(v: seq<Text>, d: byte)
    requires forall x :: x in v ==> d !in x
    ensures Split(Join(v, d), d) == if v != [] && v[|v| - 1] == [] then v[..|v| - 1] else v
  {
    if v == [] {
    } else if |v| == 1 {
      assert v[0] in v && v[0][..|v[0]|] == v[0];
      IndexOfIs(v[0], d, |v[0]|);
      assert v == [v[0]] && v[..0] == [];
    } else {
      var w := v[1..];
      assert v[0] in v && v == [v[0]] + w;
      SplitHead(v[0], Join(w, d), d);
      SplitOfJoinNoDelimiter(w, d);
      assert w[|w| - 1] == v[|v| - 1];
      assert v[..|v| - 1] == [v[0]] + w[..|w| - 1];
    }
  }

  /** A list comes back from its payload exactly when it is clean. */
  lemma SplitOfJoin(v: seq<Text>, d: byte)
    ensures Split(Join(v, d), d) == v <==> Clean(v, d)
  {
    TokensHaveNoDelimiter(Join(v, d), d);
    if forall x :: x in v ==> d !in x {
      SplitOfJoinNoDelimiter(v, d);
    }
  }

  lemma JoinCons(x: Text, w: seq<Text>, d: byte)
    requires w != []
    ensures Join([x] + w, d) == x + [d] + Join(w, d)
  {
    assert ([x] + w)[1..] == w;
  }

  /** A text without its final delimiter. */
  function Trimmed(s: Text, d: byte): Text {
    if s != [] && s[|s| - 1] == d then s[..|s| - 1] else s
  }

  lemma TrimmedTail(x: Text, rest: Text, d: byte)
    requires rest != []
    ensures Trimmed(x + rest, d) == x + Trimmed(rest, d)
  {
    var s := x + rest;
    assert s[|s| - 1] == rest[|rest| - 1];
    assert s[..|s| - 1] == x + rest[..|rest| - 1];
  }

  /** Joining the tokens restores any payload but for one trailing delimiter. */
  lemma {:induction false} JoinOfSplit(s: Text, d: byte)
    ensures Join(Split(s, d), d) == Trimmed(s, d)
    decreases |s|
  {
    var k := IndexOf(s, d);
    if s == [] {
    } else if k == |s| {
      assert s[..k] == s && s[|s| - 1] in s;
    } else {
      var rest := s[k + 1..];
      assert s == (s[..k] + [d]) + rest;
      if rest == [] {
        assert Split(s, d) == [s[..k]];
      } else {
        JoinOfSplit(rest, d);
        JoinCons(s[..k], Split(rest, d), d);
        TrimmedTail(s[..k] + [d], rest, d);
      }
    }
  }

  function CountOf(s: Text, d: byte): nat {
    if s == [] then 0 else (if s[0] == d then 1 else 0) + CountOf(s[1..], d)
  }

  lemma {:induction false} CountOfConcat(s: Text, t: Text, d: byte)
    ensures CountOf(s + t, d) == CountOf(s, d) + CountOf(t, d)
  {
    if s == [] {
      assert s + t == t;
    } else {
      CountOfConcat(s[1..], t, d);
      assert (s + t)[1..] == s[1..] + t;
    }
  }

  lemma {:induction false} CountOfNone(s: Text, d: byte)
    requires d !in s
    ensures CountOf(s, d) == 0
  {
    if s != [] { CountOfNone(s[1..], d); }
  }

  /** How many tokens a payload yields. */
  lemma {:induction false} SplitLength(s: Text, d: byte)
    ensures |Split(s, d)| == CountOf(s, d) + if s == [] || s[|s| - 1] == d then 0 else 1
    decreases |s|
  {
    var k := IndexOf(s, d);
    CountOfNone(s[..k], d);
    if s == [] {
    } else if k == |s| {
      assert s[..k] == s && s[|s| - 1] in s;
    } else {
      var rest := s[k + 1..];
      SplitLength(rest, d);
      CountOfConcat(s[..k], [d] + rest, d);
      assert s == s[..k] + ([d] + rest) && ([d] + rest)[1..] == rest;
      if rest != [] { assert rest[|rest| - 1] == s[|s| - 1]; }
    }
  }

  // ----- how many elements come back -----

  /** The delimiters inside the elements. */
  function Delimiters(v: seq<Text>, d: byte): nat {
    if v == [] then 0 else CountOf(v[0], d) + Delimiters(v[1..], d)
  }

  /** The last element is empty or ends with the delimiter. */
  predicate EndsOpen(v: seq<Text>, d: byte) {
    v != [] && (v[|v| - 1] == [] || v[|v| - 1][|v[|v| - 1]| - 1] == d)
  }

  /** By how many elements a list grows on its way through a payload. */
  function Surplus(v: seq<Text>, d: byte): int {
    Delimiters(v, d) - if EndsOpen(v, d) then 1 else 0
  }

  lemma {:induction false} JoinCount(v: seq<Text>, d: byte)
    requires v != []
    ensures CountOf(Join(v, d), d) == Delimiters(v, d) + |v| - 1
    ensures (Join(v, d) == [] || Join(v, d)[|Join(v, d)| - 1] == d) <==> EndsOpen(v, d)
    ensures Join(v, d) == [] ==> |v| == 1
  {
    if |v| > 1 {
      var rest := Join(v[1..], d);
      JoinCount(v[1..], d);
      CountOfConcat(v[0] + [d], rest, d);
      CountOfConcat(v[0], [d], d);
      assert [d][1..] == [];
      assert v[1..][|v| - 2] == v[|v| - 1];
    }
  }

  /** The number of elements that come back from a payload. */
  lemma ReadLength(v: seq<Text>, d: byte)
    ensures |Split(Join(v, d), d)| == |v| + Surplus(v, d)
  {
    if v != [] {
      SplitLength(Join(v, d), d);
      JoinCount(v, d);
    }
  }

  lemma {:induction false} DelimitersNone(v: seq<Text>, d: byte)
    ensures Delimiters(v, d) == 0 <==> forall x :: x in v ==> d !in x
  {
    if v != [] {
      DelimitersNone(v[1..], d);
      CountOfSome(v[0], d);
      assert v == [v[0]] + v[1..];
    }
  }

  lemma {:induction false} CountOfSome(s: Text, d: byte)
    ensures CountOf(s, d) == 0 <==> d !in s
  {
    if s != [] {
      CountOfSome(s[1..], d);
      assert s == [s[0]] + s[1..];
    }
  }

  /** A list loses at most one element; if its last element is neither empty nor ends with the
      delimiter it loses none, and gains one for each delimiter: none exactly when it is clean. */
  lemma SurplusSign(v: seq<Text>, d: byte)
    ensures Surplus(v, d) >= -1
    ensures Clean(v, d) ==> Surplus(v, d) == 0
    ensures !EndsOpen(v, d) ==> Surplus(v, d) >= 0 && (Surplus(v, d) == 0 <==> Clean(v, d))
  {
    DelimitersNone(v, d);
    if Clean(v, d) && v != [] { assert v[|v| - 1] in v; }
  }
}
