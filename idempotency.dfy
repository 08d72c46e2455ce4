/** The request body of `/session/start` and `/session/next`, and the idempotency key
    computed from it: a canonical payload of the chapter, the window and the voice
    pack with its entries sorted by speaker label, hashed. */
module Idempotency {
  import Text

  /** One `voice_pack` entry: speaker label and voice identifier. */
  type Item = (string, string)

  /** A JSON object's entries in the order they arrived; a Python dict keeps that order. */
  predicate DistinctKeys(vp: seq<Item>) {
    forall i, j :: 0 <= i < j < |vp| ==> vp[i].0 != vp[j].0
  }

  datatype Window = Window(startIndex: int, size: int)

  datatype ClientInfo = ClientInfo(device: string, appVersion: string)

  datatype StartRequest = StartRequest(
    chapterId: string,
    voicePack: seq<Item>,
    window: Window,
    client: ClientInfo)

  /** What the request validator guarantees before a handler runs: `start_index >= 0`,
      `size >= 1`, and a voice pack that is a dict. */
  predicate WellFormed(req: StartRequest) {
    req.window.startIndex >= 0 && req.window.size >= 1 && DistinctKeys(req.voicePack)
  }

  /** The payload that is serialised and hashed. */
  datatype CanonicalPayload = CanonicalPayload(
    chapterId: string,
    startIndex: int,
    size: int,
    voicePack: seq<Item>)

  predicate KeysAscending(s: seq<Item>) {
    forall i, j :: 0 <= i < j < |s| ==> Text.Less(s[i].0, s[j].0)
  }

  function Insert(x: Item, s: seq<Item>): (r: seq<Item>)
    ensures multiset(r) == multiset(s) + multiset{x}
  {
    if s == [] then [x]
    else if Text.Less(x.0, s[0].0) then [x] + s
    else
      assert s == [s[0]] + s[1..];
      [s[0]] + Insert(x, s[1..])
  }

  /** The entries ordered by `sorted(voice_pack.keys())`. */
  function SortByKey(vp: seq<Item>): (r: seq<Item>)
    ensures multiset(r) == multiset(vp)
  {
    if vp == [] then []
    else
      assert vp == [vp[0]] + vp[1..];
      Insert(vp[0], SortByKey(vp[1..]))
  }

  lemma {:induction false} InsertAscending(x: Item, s: seq<Item>)
    requires KeysAscending(s)
    requires forall i :: 0 <= i < |s| ==> s[i].0 != x.0
    ensures KeysAscending(Insert(x, s))
  {
    if s == [] {
    } else if Text.Less(x.0, s[0].0) {
      forall j | 0 < j < |s| ensures Text.Less(x.0, s[j].0) {
        Text.LessTransitive(x.0, s[0].0, s[j].0);
      }
    } else {
      Text.LessTotal(x.0, s[0].0);
      InsertAscending(x, s[1..]);
      var t := Insert(x, s[1..]);
      forall j | 0 <= j < |t| ensures Text.Less(s[0].0, t[j].0) {
        assert t[j] in multiset(t);
        if t[j] != x {
          assert t[j] in multiset(s[1..]);
          var k :| 0 <= k < |s[1..]| && s[1..][k] == t[j];
          assert s[k + 1] == t[j];
        }
      }
    }
  }

  lemma {:induction false} SortAscending(vp: seq<Item>)
    requires DistinctKeys(vp)
    ensures KeysAscending(SortByKey(vp))
  {
    if vp != [] {
      SortAscending(vp[1..]);
      var t := SortByKey(vp[1..]);
      forall i | 0 <= i < |t| ensures t[i].0 != vp[0].0 {
        assert t[i] in multiset(vp[1..]);
        var k :| 0 <= k < |vp[1..]| && vp[1..][k] == t[i];
        assert vp[k + 1] == t[i];
      }
      InsertAscending(vp[0], t);
    }
  }

  lemma TailMultiset(s: seq<Item>)
    requires s != []
    ensures multiset(s[1..]) == multiset(s) - multiset{s[0]}
  {
    assert s == [s[0]] + s[1..];
  }

  /** Two sequences sorted strictly by key with the same entries start alike. */
  lemma SameHead(a: seq<Item>, b: seq<Item>)
    requires KeysAscending(a) && KeysAscending(b)
    requires multiset(a) == multiset(b) && a != []
    ensures b != [] && a[0] == b[0]
  {
    assert a[0] in multiset(b);
    var i :| 0 <= i < |b| && b[i] == a[0];
    assert b[0] in multiset(a);
    var j :| 0 <= j < |a| && a[j] == b[0];
    if i > 0 && j > 0 {
      Text.LessAsymmetric(a[0].0, b[0].0);
      assert false;
    }
  }

  /** Two sequences sorted strictly by key that hold the same entries are equal. */
  lemma {:induction false} AscendingUnique(a: seq<Item>, b: seq<Item>)
    requires KeysAscending(a) && KeysAscending(b)
    requires multiset(a) == multiset(b)
    ensures a == b
  {
    if a == [] {
      assert |multiset(b)| == 0;
    } else {
      SameHead(a, b);
      TailMultiset(a);
      TailMultiset(b);
      AscendingUnique(a[1..], b[1..]);
      assert a == [a[0]] + a[1..];
    }
  }

  /** The canonical form of a request: chapter and window as given, the voice pack's
      entries in ascending order of speaker label, and no client information. */
  function Canonical(req: StartRequest): (p: CanonicalPayload)
    ensures p.chapterId == req.chapterId
    ensures p.startIndex == req.window.startIndex && p.size == req.window.size
    ensures multiset(p.voicePack) == multiset(req.voicePack)
    ensures DistinctKeys(req.voicePack) ==> KeysAscending(p.voicePack)
  {
    var sorted := SortByKey(req.voicePack);
    assert DistinctKeys(req.voicePack) ==> KeysAscending(sorted) by {
      if DistinctKeys(req.voicePack) {
        SortAscending(req.voicePack);
      }
    }
    CanonicalPayload(req.chapterId, req.window.startIndex, req.window.size, sorted)
  }

  /** Two well-formed requests have the same canonical payload exactly when they name
      the same chapter and window and their voice packs hold the same entries in
      whatever order; the client information plays no part. */
  lemma CanonicalIff(r1: StartRequest, r2: StartRequest)
    requires DistinctKeys(r1.voicePack) && DistinctKeys(r2.voicePack)
    ensures Canonical(r1) == Canonical(r2) <==>
      && r1.chapterId == r2.chapterId
      && r1.window == r2.window
      && multiset(r1.voicePack) == multiset(r2.voicePack)
  {
    if multiset(r1.voicePack) == multiset(r2.voicePack) {
      SortAscending(r1.voicePack);
      SortAscending(r2.voicePack);
      AscendingUnique(SortByKey(r1.voicePack), SortByKey(r2.voicePack));
    }
  }

  /** `narration:idemp:` followed by the hex digest of the canonical payload; the digest
      function (sha256 of the payload's JSON text) is a parameter. */
  function IdempotencyKey(sha256: CanonicalPayload -> string, req: StartRequest): string {
    "narration:idemp:" + sha256(Canonical(req))
  }

  /** The key of a request depends on its chapter, window and voice-pack entries only:
      reordering the voice pack or changing the client does not change it. */
  lemma KeyIgnoresOrderAndClient(sha256: CanonicalPayload -> string, r1: StartRequest, r2: StartRequest)
    requires DistinctKeys(r1.voicePack) && DistinctKeys(r2.voicePack)
    requires r1.chapterId == r2.chapterId && r1.window == r2.window
    requires multiset(r1.voicePack) == multiset(r2.voicePack)
    ensures IdempotencyKey(sha256, r1) == IdempotencyKey(sha256, r2)
  {
    CanonicalIff(r1, r2);
  }
}
