/**
 * The pending friend-request list: a list of request records keyed by
 * `String(r.id)`, loaded from the server with duplicates dropped, grown by
 * `friendRequest` pushes, shrunk by `friendAccepted`/`friendRejected` pushes
 * and by the user's own accept/reject answers.
 */
module Requests {
  import opened Js

  /** `String(r.id)`, the key requests are compared by. */
  function Key(r: Json): string {
    ToStr(Field(r, "id"))
  }

  predicate HasKey(list: seq<Json>, k: string) {
    exists i | 0 <= i < |list| :: Key(list[i]) == k
  }

  predicate NoDuplicateIds(list: seq<Json>) {
    forall i, j :: 0 <= i < j < |list| ==> Key(list[i]) != Key(list[j])
  }

  /** `a` is `b` with some entries left out and the rest in their order. */
  predicate Subseq(a: seq<Json>, b: seq<Json>)
    decreases |b|
  {
    if a == [] then true
    else if b == [] then false
    else if a[|a| - 1] == b[|b| - 1] then Subseq(a[..|a| - 1], b[..|b| - 1])
    else Subseq(a, b[..|b| - 1])
  }

  lemma {:induction false} SubseqAppend(a: seq<Json>, b: seq<Json>, x: Json)
    requires Subseq(a, b)
    ensures Subseq(a, b + [x])
    decreases |b|, 1
  {
    if a != [] && a[|a| - 1] == x {
      SubseqDropLast(a, b);
      assert (b + [x])[..|b|] == b;
    } else {
      assert (b + [x])[..|b|] == b;
    }
  }

  lemma {:induction false} SubseqDropLast(a: seq<Json>, b: seq<Json>)
    requires a != [] && Subseq(a, b)
    ensures Subseq(a[..|a| - 1], b)
    decreases |b|, 0
  {
    var a', b' := a[..|a| - 1], b[..|b| - 1];
    if a[|a| - 1] == b[|b| - 1] {
      SubseqAppend(a', b', b[|b| - 1]);
      assert b' + [b[|b| - 1]] == b;
    } else {
      SubseqDropLast(a, b');
      if a' != [] {
        SubseqAppend(a', b', b[|b| - 1]);
        assert b' + [b[|b| - 1]] == b;
      }
    }
  }

  // ----- Loading: deduplication by id, first occurrence wins -----

  /** No earlier entry of `s` has the key of `s[i]`. */
  predicate FirstAt(s: seq<Json>, i: int)
    requires 0 <= i < |s|
  {
    forall j :: 0 <= j < i ==> Key(s[j]) != Key(s[i])
  }

  /** The entries of `s` that are the first with their key, in order. */
  function KeepFirst(s: seq<Json>): seq<Json>
    decreases |s|
  {
    if s == [] then []
    else KeepFirst(s[..|s| - 1]) + (if FirstAt(s, |s| - 1) then [s[|s| - 1]] else [])
  }

  /** Every key of `s` survives deduplication, and no other key appears. */
  lemma {:induction false} KeepFirstKeys(s: seq<Json>, k: string)
    ensures HasKey(KeepFirst(s), k) <==> HasKey(s, k)
    decreases |s|
  {
    if s != [] {
      var p := s[..|s| - 1];
      KeepFirstKeys(p, k);
      var kp := KeepFirst(p);
      var tail := if FirstAt(s, |s| - 1) then [s[|s| - 1]] else [];
      assert KeepFirst(s) == kp + tail;
      if HasKey(KeepFirst(s), k) {
        var i :| 0 <= i < |KeepFirst(s)| && Key(KeepFirst(s)[i]) == k;
        if i < |kp| {
          assert Key(kp[i]) == k;
          var j :| 0 <= j < |p| && Key(p[j]) == k;
          assert s[j] == p[j];
        } else {
          assert Key(s[|s| - 1]) == k;
        }
      }
      if HasKey(s, k) {
        var j :| 0 <= j < |s| && Key(s[j]) == k;
        if j < |s| - 1 {
          assert Key(p[j]) == k;
          var i :| 0 <= i < |kp| && Key(kp[i]) == k;
          assert KeepFirst(s)[i] == kp[i];
        } else if FirstAt(s, |s| - 1) {
          assert KeepFirst(s)[|kp|] == s[|s| - 1];
        } else {
          var j' :| 0 <= j' < |s| - 1 && Key(s[j']) == Key(s[|s| - 1]);
          assert Key(p[j']) == k;
          var i :| 0 <= i < |kp| && Key(kp[i]) == k;
          assert KeepFirst(s)[i] == kp[i];
        }
      }
    }
  }

  /** The deduplicated list has no two entries with the same id. */
  lemma {:induction false} KeepFirstNoDuplicates(s: seq<Json>)
    ensures NoDuplicateIds(KeepFirst(s))
    decreases |s|
  {
    if s != [] {
      var p := s[..|s| - 1];
      KeepFirstNoDuplicates(p);
      if FirstAt(s, |s| - 1) {
        var kp := KeepFirst(p);
        var x := s[|s| - 1];
        KeepFirstKeys(p, Key(x));
        assert !HasKey(p, Key(x)) by {
          forall j | 0 <= j < |p| ensures Key(p[j]) != Key(x) { assert p[j] == s[j]; }
        }
        assert forall i :: 0 <= i < |kp| ==> Key(kp[i]) != Key(x);
        assert KeepFirst(s) == kp + [x];
      }
    }
  }

  /** The deduplicated list keeps the server's order. */
  lemma {:induction false} KeepFirstSubseq(s: seq<Json>)
    ensures Subseq(KeepFirst(s), s)
    decreases |s|
  {
    if s != [] {
      var p := s[..|s| - 1];
      var x := s[|s| - 1];
      KeepFirstSubseq(p);
      assert p + [x] == s;
      if FirstAt(s, |s| - 1) {
        var a := KeepFirst(p) + [x];
        assert KeepFirst(s) == a;
        assert a[..|a| - 1] == KeepFirst(p);
      } else {
        assert KeepFirst(s) == KeepFirst(p);
        SubseqAppend(KeepFirst(p), p, x);
      }
    }
  }

  /** A list that already has distinct ids is left as it is; in particular
      deduplicating twice is deduplicating once. */
  lemma {:induction false} KeepFirstOfDistinct(s: seq<Json>)
    requires NoDuplicateIds(s)
    ensures KeepFirst(s) == s
    decreases |s|
  {
    if s != [] {
      var p := s[..|s| - 1];
      KeepFirstOfDistinct(p);
      assert FirstAt(s, |s| - 1);
    }
  }

  lemma KeepFirstIdempotent(s: seq<Json>)
    ensures KeepFirst(KeepFirst(s)) == KeepFirst(s)
  {
    KeepFirstNoDuplicates(s);
    KeepFirstOfDistinct(KeepFirst(s));
  }

  /** One more entry extends the deduplicated prefix by that entry exactly
      when it is the first with its key. */
  lemma KeepFirstStep(s: seq<Json>, i: int)
    requires 0 <= i < |s|
    ensures KeepFirst(s[..i + 1]) == KeepFirst(s[..i]) + (if FirstAt(s[..i + 1], i) then [s[i]] else [])
  {
    assert s[..i + 1][..i] == s[..i];
  }

  /** An entry is the first with its key when the prefix before it lacks the key. */
  lemma FirstAtPrefix(s: seq<Json>, i: int)
    requires 0 <= i < |s|
    ensures FirstAt(s[..i + 1], i) <==> !HasKey(s[..i], Key(s[i]))
  {
    assert forall j :: 0 <= j < i ==> s[..i + 1][j] == s[..i][j];
  }

  /** The `reduce` of `fetchRequests`: push each entry unless one with the
      same `String(id)` is already in the accumulator. */
  method Dedupe(rs: seq<Json>) returns (acc: seq<Json>)
    ensures acc == KeepFirst(rs)
    ensures NoDuplicateIds(acc) && Subseq(acc, rs)
    ensures forall k :: HasKey(acc, k) <==> HasKey(rs, k)
  {
    acc := [];
    var i := 0;
    while i < |rs|
      invariant 0 <= i <= |rs|
      invariant acc == KeepFirst(rs[..i])
    {
      var r := rs[i];
      KeepFirstStep(rs, i);
      FirstAtPrefix(rs, i);
      KeepFirstKeys(rs[..i], Key(r));
      if !HasKey(acc, Key(r)) {
        acc := acc + [r];
      }
      i := i + 1;
    }
    assert rs[..i] == rs;
    KeepFirstNoDuplicates(rs);
    KeepFirstSubseq(rs);
    forall k ensures HasKey(acc, k) <==> HasKey(rs, k) { KeepFirstKeys(rs, k); }
  }

  // ----- Push events -----

  /** The record `friendRequest` prepends: `{ id: String(from), name, email }`. */
  function NewRequest(payload: Json): (r: Json)
    ensures Key(r) == ToStr(Field(payload, "from"))
    ensures Field(r, "name") == Field(payload, "name") && Field(r, "email") == Field(payload, "email")
  {
    Obj(map["id" := Str(ToStr(Field(payload, "from"))), "name" := Field(payload, "name"), "email" := Field(payload, "email")])
  }

  /** The `friendRequest` updater. A `null`/`undefined` payload or entry makes
      it throw, and the list then keeps its value. */
  function Inserted(prev: seq<Json>, payload: Json): (r: seq<Json>)
    ensures var k := ToStr(Field(payload, "from"));
      if !Nullish(payload) && Readable(prev) && !HasKey(prev, k)
      then |r| == |prev| + 1 && r[0] == NewRequest(payload) && r[1..] == prev
      else r == prev
  {
    if Nullish(payload) || !Readable(prev) || HasKey(prev, ToStr(Field(payload, "from"))) then prev
    else [NewRequest(payload)] + prev
  }

  /** Once a request is inserted its sender is in the list. */
  lemma InsertedHasKey(prev: seq<Json>, payload: Json)
    requires !Nullish(payload) && Readable(prev)
    ensures HasKey(Inserted(prev, payload), ToStr(Field(payload, "from")))
    ensures Readable(Inserted(prev, payload))
  {
    var r := Inserted(prev, payload);
    var k := ToStr(Field(payload, "from"));
    if !HasKey(prev, k) {
      assert Key(r[0]) == k;
    }
    forall i | 0 <= i < |r| ensures !Nullish(r[i]) {
      if r != prev && i > 0 { assert r[i] == prev[i - 1]; }
    }
  }

  /** Receiving the same `friendRequest` twice is receiving it once. */
  lemma InsertedIdempotent(prev: seq<Json>, payload: Json)
    ensures Inserted(Inserted(prev, payload), payload) == Inserted(prev, payload)
  {
    if !Nullish(payload) && Readable(prev) {
      InsertedHasKey(prev, payload);
    }
  }

  /** Inserting keeps the ids distinct. */
  lemma InsertedNoDuplicates(prev: seq<Json>, payload: Json)
    requires NoDuplicateIds(prev)
    ensures NoDuplicateIds(Inserted(prev, payload))
  {
    var r := Inserted(prev, payload);
    if r != prev {
      forall i, j | 0 <= i < j < |r| ensures Key(r[i]) != Key(r[j]) {
        assert r[j] == prev[j - 1];
        if i > 0 { assert r[i] == prev[i - 1]; }
      }
    }
  }

  /** The entries of `list` whose key is not `k`, in order. */
  function WithoutKey(list: seq<Json>, k: string): (r: seq<Json>)
    ensures forall x :: x in r <==> x in list && Key(x) != k
    ensures |r| <= |list|
    decreases |list|
  {
    if list == [] then []
    else
      var p := list[..|list| - 1];
      var x := list[|list| - 1];
      assert list == p + [x];
      assert forall y :: y in list <==> y in p || y == x;
      WithoutKey(p, k) + (if Key(x) != k then [x] else [])
  }

  /** The filter keeps every entry with another key as many times as it
      occurs, and drops every occurrence of the key. */
  lemma {:induction false} WithoutKeyCounts(list: seq<Json>, k: string)
    ensures forall x :: multiset(WithoutKey(list, k))[x] == if Key(x) != k then multiset(list)[x] else 0
    decreases |list|
  {
    if list != [] {
      var p := list[..|list| - 1];
      var x := list[|list| - 1];
      assert list == p + [x];
      WithoutKeyCounts(p, k);
      assert WithoutKey(list, k) == WithoutKey(p, k) + (if Key(x) != k then [x] else []);
    }
  }

  lemma {:induction false} WithoutKeySubseq(list: seq<Json>, k: string)
    ensures Subseq(WithoutKey(list, k), list)
    decreases |list|
  {
    if list != [] {
      var p := list[..|list| - 1];
      var x := list[|list| - 1];
      WithoutKeySubseq(p, k);
      assert p + [x] == list;
      if Key(x) != k {
        var a := WithoutKey(p, k) + [x];
        assert WithoutKey(list, k) == a;
        assert a[..|a| - 1] == WithoutKey(p, k);
      } else {
        assert WithoutKey(list, k) == WithoutKey(p, k);
        SubseqAppend(WithoutKey(p, k), p, x);
      }
    }
  }

  /** A list without the key is left as it is. */
  lemma {:induction false} WithoutAbsentKey(list: seq<Json>, k: string)
    requires !HasKey(list, k)
    ensures WithoutKey(list, k) == list
    decreases |list|
  {
    if list != [] {
      var p := list[..|list| - 1];
      assert !HasKey(p, k) by {
        forall i | 0 <= i < |p| ensures Key(p[i]) != k { assert list[i] == p[i]; }
      }
      WithoutAbsentKey(p, k);
      assert Key(list[|list| - 1]) != k;
    }
  }

  /** The `friendAccepted`/`friendRejected` updater (and the list update of a
      successful answer): drop every entry whose `String(id)` is
      `String(from)`. A `null`/`undefined` entry makes the filter throw and
      the list keeps its value. */
  function Removed(prev: seq<Json>, from: Json): (r: seq<Json>)
    ensures Readable(prev) ==> r == WithoutKey(prev, ToStr(from))
    ensures !Readable(prev) ==> r == prev
  {
    if Readable(prev) then WithoutKey(prev, ToStr(from)) else prev
  }

  /** After a removal no entry has the removed id, every other entry is still
      there in its order, and the ids stay distinct. */
  lemma RemovedSpec(prev: seq<Json>, from: Json)
    requires Readable(prev)
    ensures !HasKey(Removed(prev, from), ToStr(from))
    ensures forall x :: x in prev && Key(x) != ToStr(from) ==> x in Removed(prev, from)
    ensures forall x :: Key(x) != ToStr(from) ==> multiset(Removed(prev, from))[x] == multiset(prev)[x]
    ensures Subseq(Removed(prev, from), prev)
    ensures Readable(Removed(prev, from))
    ensures NoDuplicateIds(prev) ==> NoDuplicateIds(Removed(prev, from))
  {
    var r := Removed(prev, from);
    var k := ToStr(from);
    forall i | 0 <= i < |r| ensures Key(r[i]) != k {
      assert r[i] in r;
    }
    forall i | 0 <= i < |r| ensures !Nullish(r[i]) {
      assert r[i] in prev;
    }
    WithoutKeySubseq(prev, k);
    WithoutKeyCounts(prev, k);
    if NoDuplicateIds(prev) {
      RemovedDistinct(prev, k);
    }
  }

  lemma {:induction false} RemovedDistinct(list: seq<Json>, k: string)
    requires NoDuplicateIds(list)
    ensures NoDuplicateIds(WithoutKey(list, k))
    decreases |list|
  {
    if list != [] {
      var p := list[..|list| - 1];
      var x := list[|list| - 1];
      RemovedDistinct(p, k);
      var w := WithoutKey(p, k);
      if Key(x) != k {
        forall i | 0 <= i < |w| ensures Key(w[i]) != Key(x) {
          assert w[i] in p;
          var j :| 0 <= j < |p| && p[j] == w[i];
          assert list[j] == p[j];
        }
        assert WithoutKey(list, k) == w + [x];
      }
    }
  }

  /** Removing twice is removing once. */
  lemma RemovedIdempotent(prev: seq<Json>, from: Json)
    ensures Removed(Removed(prev, from), from) == Removed(prev, from)
  {
    if Readable(prev) {
      RemovedSpec(prev, from);
      WithoutAbsentKey(Removed(prev, from), ToStr(from));
    }
  }

  /** The `friendAccepted`/`friendRejected` handler: `payload?.from`, a no-op
      when falsy. */
  function OnResolved(prev: seq<Json>, payload: Json): (r: seq<Json>)
    ensures !Truthy(OptField(payload, "from")) ==> r == prev
    ensures Truthy(OptField(payload, "from")) ==> r == Removed(prev, Field(payload, "from"))
  {
    var id := OptField(payload, "from");
    if !Truthy(id) then prev else Removed(prev, id)
  }

  // ----- Answering a request -----

  datatype Lookup = Missing | Found(entry: Json) | Crashed

  /** `find` passes the first `i` entries: each is readable and has another key. */
  predicate PassedBefore(list: seq<Json>, k: string, i: int) {
    forall j :: 0 <= j < i && j < |list| ==> !Nullish(list[j]) && Key(list[j]) != k
  }

  /** `find` stops at index `i` with a match. */
  predicate MatchAt(list: seq<Json>, k: string, i: int) {
    0 <= i < |list| && PassedBefore(list, k, i) && !Nullish(list[i]) && Key(list[i]) == k
  }

  /** `find`'s callback throws at index `i`. */
  predicate CrashAt(list: seq<Json>, k: string, i: int) {
    0 <= i < |list| && PassedBefore(list, k, i) && Nullish(list[i])
  }

  /** `requests.find(r => String(r.id) === k)`: the first entry with key `k`;
      it throws if it reaches a `null`/`undefined` entry first. */
  function Find(list: seq<Json>, k: string): (r: Lookup)
    ensures r.Found? <==> exists i :: MatchAt(list, k, i)
    ensures r.Found? ==> exists i :: MatchAt(list, k, i) && r.entry == list[i]
    ensures r.Crashed? <==> exists i :: CrashAt(list, k, i)
    ensures r.Missing? <==> Readable(list) && !HasKey(list, k)
    ensures Readable(list) ==> !r.Crashed?
    decreases |list|
  {
    if list == [] then Missing
    else if Nullish(list[0]) then
      assert CrashAt(list, k, 0);
      Crashed
    else if Key(list[0]) == k then
      assert MatchAt(list, k, 0);
      Found(list[0])
    else
      var r := Find(list[1..], k);
      assert forall i :: 1 <= i < |list| ==> list[i] == list[1..][i - 1];
      ShiftScan(list, k);
      if r.Found? then
        var i :| MatchAt(list[1..], k, i) && r.entry == list[1..][i];
        assert MatchAt(list, k, i + 1);
        r
      else r
  }

  /** Scanning `list` past its readable, non-matching head is scanning its tail. */
  lemma ShiftScan(list: seq<Json>, k: string)
    requires list != [] && !Nullish(list[0]) && Key(list[0]) != k
    ensures forall i :: MatchAt(list, k, i) <==> i >= 1 && MatchAt(list[1..], k, i - 1)
    ensures forall i :: CrashAt(list, k, i) <==> i >= 1 && CrashAt(list[1..], k, i - 1)
    ensures (exists i :: MatchAt(list, k, i)) <==> exists i :: MatchAt(list[1..], k, i)
    ensures (exists i :: CrashAt(list, k, i)) <==> exists i :: CrashAt(list[1..], k, i)
  {
    forall i | 1 <= i <= |list|
      ensures PassedBefore(list, k, i) <==> PassedBefore(list[1..], k, i - 1)
    {
      if PassedBefore(list[1..], k, i - 1) {
        forall j | 0 <= j < i && j < |list| ensures !Nullish(list[j]) && Key(list[j]) != k {
          if j > 0 { assert list[j] == list[1..][j - 1]; }
        }
      }
      if PassedBefore(list, k, i) {
        forall j | 0 <= j < i - 1 && j < |list[1..]| ensures !Nullish(list[1..][j]) && Key(list[1..][j]) != k {
          assert list[1..][j] == list[j + 1];
        }
      }
    }
    if exists i :: MatchAt(list[1..], k, i) {
      var i :| MatchAt(list[1..], k, i);
      assert MatchAt(list, k, i + 1);
    }
    if exists i :: CrashAt(list[1..], k, i) {
      var i :| CrashAt(list[1..], k, i);
      assert CrashAt(list, k, i + 1);
    }
  }

  /** The `friendAccepted` event a successful answer dispatches locally. */
  function AcceptedEvent(from: Json, name: Json): Json {
    Obj(map["from" := from, "name" := name])
  }

  /** The requester's name: from the list, else `(data && data.name) || undefined`. */
  function RequesterName(found: Lookup, data: Json): (r: Json)
    ensures found.Found? && Truthy(found.entry) ==> r == Field(found.entry, "name")
    ensures !(found.Found? && Truthy(found.entry)) && Truthy(data) && Truthy(Field(data, "name")) ==> r == Field(data, "name")
    ensures !(found.Found? && Truthy(found.entry)) && !(Truthy(data) && Truthy(Field(data, "name"))) ==> r == Undefined
  {
    if found.Found? && Truthy(found.entry) then Field(found.entry, "name") else Or(AndField(data, "name"), Undefined)
  }

  class RequestList {
    var requests: seq<Json>
    var loading: bool
    var error: Json

    constructor ()
      ensures requests == [] && !loading && error == Null
    {
      requests := [];
      loading := false;
      error := Null;
    }

    /** `fetchRequests`: on success the list becomes the server's
        `data.requests` (missing means empty) deduplicated; on failure the list
        is kept and the error is set. */
    method FetchRequests(reply: Reply)
      modifies this
      ensures !loading
      ensures reply.Thrown? ==> requests == old(requests) && error == Or(reply.message, Str("Network error"))
      ensures reply.Reply? && !reply.ok ==>
        requests == old(requests)
        && error == (if Nullish(reply.body) then TypeErrorMessage
                     else Or(Field(reply.body, "message"), Str("Failed to load requests")))
      ensures reply.Reply? && reply.ok && Nullish(reply.body) ==> requests == old(requests) && error == TypeErrorMessage
      ensures reply.Reply? && reply.ok && !Nullish(reply.body) ==>
        var src := Or(Field(reply.body, "requests"), Arr([]));
        if src.Arr? && (|src.items| < 2 || Readable(src.items))
        then requests == KeepFirst(src.items) && error == old(error)
        else requests == old(requests) && error == TypeErrorMessage
    {
      loading := true;
      match reply {
        case Thrown(m) =>
          error := Or(m, Str("Network error"));
        case Reply(ok, data) =>
          if !ok {
            if Nullish(data) {
              error := TypeErrorMessage;
            } else {
              error := Or(Field(data, "message"), Str("Failed to load requests"));
            }
          } else if Nullish(data) {
            error := TypeErrorMessage;
          } else {
            var src := Or(Field(data, "requests"), Arr([]));
            if !src.Arr? {
              // `.reduce` is not a function of a non-array value
              error := TypeErrorMessage;
            } else if |src.items| >= 2 && !Readable(src.items) {
              // the `some` callback reads `id` of a null or undefined entry
              error := TypeErrorMessage;
            } else {
              requests := Dedupe(src.items);
            }
          }
      }
      loading := false;
    }

    /** The `friendRequest` socket handler. */
    method OnFriendRequest(payload: Json)
      modifies this`requests
      ensures requests == Inserted(old(requests), payload)
    {
      requests := Inserted(requests, payload);
    }

    /** The `friendAccepted` and `friendRejected` socket handlers. */
    method OnFriendResolved(payload: Json)
      modifies this`requests
      ensures requests == OnResolved(old(requests), payload)
    {
      requests := OnResolved(requests, payload);
    }

    /** `respond(requesterId, action)`: the server's answer to accepting or
        rejecting. Returns whether `onFriendAdded` was called and the
        `friendAccepted` event dispatched to the window, if any. */
    method Respond(requesterId: Json, action: string, reply: Reply, hasOnFriendAdded: bool)
      returns (friendAdded: bool, dispatched: Option<Json>)
      modifies this
      ensures !loading
      ensures reply.Thrown? ==>
        requests == old(requests) && error == Or(reply.message, Str("Network error"))
        && !friendAdded && dispatched == None
      ensures reply.Reply? && !reply.ok ==>
        requests == old(requests) && !friendAdded && dispatched == None
        && error == (if Nullish(reply.body) then TypeErrorMessage else Or(Field(reply.body, "message"), Str("Failed")))
      ensures reply.Reply? && reply.ok ==>
        var found := Find(old(requests), ToStr(requesterId));
        if found.Crashed? then
          requests == old(requests) && error == TypeErrorMessage && !friendAdded && dispatched == None
        else
          requests == Removed(old(requests), requesterId) && error == old(error)
          && friendAdded == (action == "accept" && hasOnFriendAdded)
          && dispatched == Some(AcceptedEvent(requesterId, RequesterName(found, reply.body)))
    {
      loading := true;
      friendAdded, dispatched := false, None;
      match reply {
        case Thrown(m) =>
          error := Or(m, Str("Network error"));
        case Reply(ok, data) =>
          if !ok {
            if Nullish(data) {
              error := TypeErrorMessage;
            } else {
              error := Or(Field(data, "message"), Str("Failed"));
            }
          } else {
            var found := Find(requests, ToStr(requesterId));
            if found.Crashed? {
              error := TypeErrorMessage;
            } else {
              var name := RequesterName(found, data);
              requests := Removed(requests, requesterId);
              friendAdded := action == "accept" && hasOnFriendAdded;
              dispatched := Some(AcceptedEvent(requesterId, name));
            }
          }
      }
      loading := false;
    }
  }

  /** A successful answer removes the requester and only the requester. */
  lemma RespondRemovesRequester(prev: seq<Json>, requesterId: Json)
    requires Readable(prev) && NoDuplicateIds(prev)
    ensures !HasKey(Removed(prev, requesterId), ToStr(requesterId))
    ensures NoDuplicateIds(Removed(prev, requesterId))
    ensures HasKey(prev, ToStr(requesterId)) ==> |Removed(prev, requesterId)| == |prev| - 1
  {
    RemovedSpec(prev, requesterId);
    if HasKey(prev, ToStr(requesterId)) {
      RemovedOneLess(prev, ToStr(requesterId));
    }
  }

  lemma {:induction false} RemovedOneLess(list: seq<Json>, k: string)
    requires NoDuplicateIds(list) && HasKey(list, k)
    ensures |WithoutKey(list, k)| == |list| - 1
    decreases |list|
  {
    var p := list[..|list| - 1];
    var x := list[|list| - 1];
    if Key(x) == k {
      assert !HasKey(p, k) by {
        forall i | 0 <= i < |p| ensures Key(p[i]) != k { assert list[i] == p[i]; }
      }
      WithoutAbsentKey(p, k);
    } else {
      var i :| 0 <= i < |list| && Key(list[i]) == k;
      assert Key(p[i]) == k;
      assert NoDuplicateIds(p) by {
        forall a, b | 0 <= a < b < |p| ensures Key(p[a]) != Key(p[b]) {
          assert p[a] == list[a] && p[b] == list[b];
        }
      }
      RemovedOneLess(p, k);
    }
  }
}
