/** Searching a byte stream for a token that may be split across reads. */
module Scanning {
  newtype byte = x: int | 0 <= x < 256

  type Bytes = seq<byte>

  predicate OccursAt(data: Bytes, token: Bytes, i: nat) {
    i + |token| <= |data| && data[i..i + |token|] == token
  }

  /** The first occurrence at or after position i, or -1. */
  function FindFrom(data: Bytes, token: Bytes, i: nat): (r: int)
    ensures r == -1 || (i <= r && r + |token| <= |data|)
    decreases |data| - i
  {
    if i + |token| > |data| then -1
    else if OccursAt(data, token, i) then i
    else FindFrom(data, token, i + 1)
  }

  function Find(data: Bytes, token: Bytes): (r: int)
    requires token != []
    ensures r == -1 || (0 <= r && r + |token| <= |data|)
  {
    FindFrom(data, token, 0)
  }

  lemma {:induction false} FindFromIsFirst(data: Bytes, token: Bytes, i: nat)
    ensures
      var r := FindFrom(data, token, i);
      && (r == -1 || OccursAt(data, token, r))
      && (forall j :: i <= j < (if r == -1 then |data| else r) ==> !OccursAt(data, token, j))
    decreases |data| - i
  {
    if i + |token| <= |data| && !OccursAt(data, token, i) {
      FindFromIsFirst(data, token, i + 1);
    }
  }

  predicate FirstAt(data: Bytes, token: Bytes, r: int) {
    && (r == -1 || (0 <= r && OccursAt(data, token, r)))
    && (forall j :: 0 <= j < (if r == -1 then |data| else r) ==> !OccursAt(data, token, j))
  }

  /** Find answers r exactly when r is the first occurrence, or -1 and there is none. */
  lemma FindExactly(data: Bytes, token: Bytes, r: int)
    requires token != []
    ensures Find(data, token) == r <==> FirstAt(data, token, r)
  {
    FindFromIsFirst(data, token, 0);
    if FirstAt(data, token, r) && r != -1 {
      assert Find(data, token) <= r;
    }
  }

  predicate EndsWith(data: Bytes, suffix: Bytes) {
    |suffix| <= |data| && data[|data| - |suffix|..] == suffix
  }

  /** The data ends with the first k bytes of the token, but not with the whole token. */
  predicate Partial(data: Bytes, token: Bytes, k: nat) {
    k < |token| && EndsWith(data, token[..k])
  }

  predicate LongestPartial(data: Bytes, token: Bytes, hold: nat) {
    Partial(data, token, hold) && forall k :: hold < k < |token| ==> !Partial(data, token, k)
  }

  /** How many bytes to hold back: the longest tail that could be the start of a token. */
  method HoldBack(data: Bytes, token: Bytes) returns (hold: nat)
    requires token != []
    ensures LongestPartial(data, token, hold)
  {
    hold := 0;
    var k := if |data| < |token| - 1 then |data| else |token| - 1;
    while k > 0
      invariant 0 <= k < |token| && k <= |data|
      invariant forall j :: k < j < |token| ==> !Partial(data, token, j)
    {
      if EndsWith(data, token[..k]) {
        return k;
      }
      k := k - 1;
    }
  }

  function Hold(data: Bytes, token: Bytes): (hold: nat)
    requires token != []
    ensures hold < |token| && hold <= |data|
  {
    HoldFrom(data, token, |token| - 1)
  }

  function HoldFrom(data: Bytes, token: Bytes, k: nat): (hold: nat)
    requires k < |token|
    ensures hold <= k && hold <= |data|
  {
    if Partial(data, token, k) then k
    else if k == 0 then 0
    else HoldFrom(data, token, k - 1)
  }

  lemma {:induction false} HoldFromIsLongest(data: Bytes, token: Bytes, k: nat)
    requires k < |token|
    requires forall j :: k < j < |token| ==> !Partial(data, token, j)
    ensures LongestPartial(data, token, HoldFrom(data, token, k))
  {
    if !Partial(data, token, k) {
      HoldFromIsLongest(data, token, k - 1);
    }
  }

  /** Hold answers h exactly when h is the longest partial token at the end. */
  lemma HoldExactly(data: Bytes, token: Bytes, h: nat)
    requires token != []
    ensures Hold(data, token) == h <==> LongestPartial(data, token, h)
  {
    HoldFromIsLongest(data, token, |token| - 1);
  }

  // ---------------------------------------------------------------- streams read in pieces

  lemma OccursBefore(data: Bytes, more: Bytes, token: Bytes, i: nat)
    requires i + |token| <= |data|
    ensures OccursAt(data + more, token, i) <==> OccursAt(data, token, i)
  {
    assert (data + more)[i..i + |token|] == data[i..i + |token|];
  }

  lemma OccursAfter(front: Bytes, rest: Bytes, token: Bytes, j: nat)
    ensures OccursAt(front + rest, token, |front| + j) <==> OccursAt(rest, token, j)
  {
    if j + |token| <= |rest| {
      assert (front + rest)[|front| + j..|front| + j + |token|] == rest[j..j + |token|];
    }
  }

  /** An occurrence that straddles a read starts inside the held-back tail. */
  lemma NoEarlyOccurrence(data: Bytes, token: Bytes, more: Bytes, i: nat)
    requires token != [] && Find(data, token) == -1
    requires i < |data| - Hold(data, token)
    ensures !OccursAt(data + more, token, i)
  {
    FindExactly(data, token, -1);
    HoldExactly(data, token, Hold(data, token));
    if i + |token| <= |data| {
      OccursBefore(data, more, token, i);
    } else if OccursAt(data + more, token, i) {
      var all := data + more;
      var k := |data| - i;
      assert all[i..i + |token|][..k] == all[i..i + k] == data[i..];
      assert Partial(data, token, k);
    }
  }

  /** Skipping a prefix in which nothing starts shifts the search. */
  lemma FindShift(front: Bytes, rest: Bytes, token: Bytes)
    requires token != [] && forall i :: 0 <= i < |front| ==> !OccursAt(front + rest, token, i)
    ensures Find(front + rest, token) == if Find(rest, token) == -1 then -1 else |front| + Find(rest, token)
  {
    var all := front + rest;
    var r := Find(rest, token);
    var expected := if r == -1 then -1 else |front| + r;
    FindExactly(rest, token, r);
    forall j | 0 <= j < (if r == -1 then |all| else |front| + r)
      ensures !OccursAt(all, token, j)
    {
      if j >= |front| {
        OccursAfter(front, rest, token, j - |front|);
      }
    }
    if r != -1 {
      OccursAfter(front, rest, token, r);
    }
    FindExactly(all, token, expected);
  }

  lemma FindAcrossReads(data: Bytes, token: Bytes, more: Bytes)
    requires token != [] && Find(data, token) == -1
    ensures
      var kept := |data| - Hold(data, token);
      Find(data + more, token) ==
      if Find(data[kept..] + more, token) == -1 then -1 else kept + Find(data[kept..] + more, token)
  {
    var kept := |data| - Hold(data, token);
    var front, rest := data[..kept], data[kept..] + more;
    assert front + rest == data + more;
    forall i | 0 <= i < |front|
      ensures !OccursAt(front + rest, token, i)
    {
      NoEarlyOccurrence(data, token, more, i);
    }
    FindShift(front, rest, token);
  }

  lemma FindInPrefix(data: Bytes, token: Bytes, more: Bytes)
    requires token != []
    ensures Find(data, token) != -1 ==> Find(data + more, token) == Find(data, token)
    ensures Find(data + more, token) == -1 ==> Find(data, token) == -1
  {
    var r := Find(data, token);
    FindExactly(data, token, r);
    if r != -1 {
      OccursBefore(data, more, token, r);
      forall j | 0 <= j < r
        ensures !OccursAt(data + more, token, j)
      {
        OccursBefore(data, more, token, j);
      }
      FindExactly(data + more, token, r);
    }
  }

  lemma PartialInTail(data: Bytes, token: Bytes, k: nat, tail: nat)
    requires tail <= |data| && k <= tail
    ensures Partial(data, token, k) <==> Partial(data[|data| - tail..], token, k)
  {
    var t := data[|data| - tail..];
    assert t[|t| - k..] == data[|data| - k..];
  }

  /** A partial token longer than the new bytes was a partial token before them. */
  lemma PartialBefore(data: Bytes, token: Bytes, more: Bytes, k: nat)
    requires |more| <= k && Partial(data + more, token, k)
    ensures Partial(data, token, k - |more|)
  {
    var all, j := data + more, k - |more|;
    assert data[|data| - j..] == all[|all| - k..][..j];
  }

  /** The held-back tail of a stream can be recomputed from the previous tail and the new bytes. */
  lemma HoldAcrossReads(data: Bytes, token: Bytes, more: Bytes)
    requires token != []
    ensures
      var kept := |data| - Hold(data, token);
      Hold(data + more, token) == Hold(data[kept..] + more, token)
  {
    var kept := |data| - Hold(data, token);
    var all, rest := data + more, data[kept..] + more;
    assert rest == all[|all| - |rest|..];
    var h := Hold(all, token);
    HoldExactly(data, token, Hold(data, token));
    HoldExactly(all, token, h);
    if h > |rest| {
      PartialBefore(data, token, more, h);
    }
    forall k: nat | k <= |rest|
      ensures Partial(all, token, k) <==> Partial(rest, token, k)
    {
      PartialInTail(all, token, k, |rest|);
    }
    HoldExactly(rest, token, h);
  }
}
