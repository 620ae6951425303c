/** The blob watcher (Backend/app/blob_watcher.py): its own copy of the
    bottle-id rule, the initial marking of the blobs already present, and one
    pass of the polling loop, which pairs tap and level images by bottle id,
    visits the complete bottles in sorted order and marks each handled pair
    in `processed_blobs` before handing it to the processor.

    Listing the containers and processing a bottle are inputs: a listing is
    a `Result` (an exception or the blob names), and `processErrors(n)` says
    whether the n-th processing call of the pass raised. The running flag is
    `running(k)`, its value at the k-th time the pass reads it. */
module BlobWatcher {
  import opened Text
  import Processor

  /** `_get_bottle_id` as written in the watcher. */
  function GetBottleId(blobName: string): (id: string)
    ensures |id| <= |blobName|
  {
    var nameWithoutExt := StripExtension(blobName);
    if Contains(nameWithoutExt, "_tap") then ReplaceAll(nameWithoutExt, "_tap", "")
    else if Contains(nameWithoutExt, "_level") then ReplaceAll(nameWithoutExt, "_level", "")
    else nameWithoutExt
  }

  /** The watcher and the processor derive the same id from every name. */
  lemma SameBottleId(blobName: string)
    ensures GetBottleId(blobName) == Processor.GetBottleId(blobName)
  {
  }

  /** The `processed_blobs` entry of a blob: `"<container>/<blob>"`. */
  function Key(container: string, blob: string): (k: string)
    ensures |k| == |container| + 1 + |blob| && k[|container|] == '/'
    ensures k[..|container|] == container && k[|container| + 1..] == blob
  {
    container + "/" + blob
  }

  /** Within one container, different blobs get different entries. */
  lemma KeyInjective(container: string, a: string, b: string)
    ensures Key(container, a) == Key(container, b) <==> a == b
  {
    if Key(container, a) == Key(container, b) {
      calc {
        a;
        Key(container, a)[|container| + 1..];
        Key(container, b)[|container| + 1..];
        b;
      }
    }
  }

  /** The entries of every blob of a listing. */
  function Keys(container: string, blobs: seq<string>): set<string>
  {
    set b | b in blobs :: Key(container, b)
  }

  /** `{key(b): b for b in blobs}`, used with `key` the bottle-id rule: a
      later blob with the same id overwrites an earlier one. */
  function IdMap(key: string -> string, blobs: seq<string>): (m: map<string, string>)
    ensures forall id :: id in m ==> key(m[id]) == id && m[id] in blobs
    decreases |blobs|
  {
    if |blobs| == 0 then map[]
    else
      var last := blobs[|blobs| - 1];
      var m := IdMap(key, blobs[..|blobs| - 1]);
      m[key(last) := last]
  }

  /** The ids of the map are exactly the ids of the listing. */
  lemma {:induction false} IdMapKeys(key: string -> string, blobs: seq<string>, id: string)
    ensures id in IdMap(key, blobs) <==> exists i :: 0 <= i < |blobs| && key(blobs[i]) == id
    decreases |blobs|
  {
    if |blobs| > 0 {
      var init := blobs[..|blobs| - 1];
      IdMapKeys(key, init, id);
      if exists i :: 0 <= i < |init| && key(init[i]) == id {
        var i :| 0 <= i < |init| && key(init[i]) == id;
        assert blobs[i] == init[i];
      }
      if exists i :: 0 <= i < |blobs| && key(blobs[i]) == id {
        var i :| 0 <= i < |blobs| && key(blobs[i]) == id;
        if i < |init| { assert init[i] == blobs[i]; }
      }
    }
  }

  /** The entry kept for an id is the last blob of the listing with that id. */
  lemma {:induction false} IdMapLastWins(key: string -> string, blobs: seq<string>, i: nat)
    requires i < |blobs|
    requires forall j :: i < j < |blobs| ==> key(blobs[j]) != key(blobs[i])
    ensures key(blobs[i]) in IdMap(key, blobs)
    ensures IdMap(key, blobs)[key(blobs[i])] == blobs[i]
    decreases |blobs|
  {
    if i < |blobs| - 1 {
      var init := blobs[..|blobs| - 1];
      assert init[i] == blobs[i];
      IdMapLastWins(key, init, i);
    }
  }

  /** `sorted(set(tap_ids) & set(level_ids))`, built by inserting the tap ids
      one by one into an ascending sequence. */
  function CompleteBottles(key: string -> string, tapBlobs: seq<string>, levelIds: set<string>)
    : (r: seq<string>)
    ensures Ascending(r)
    ensures forall id :: id in r <==> id in IdMap(key, tapBlobs) && id in levelIds
    decreases |tapBlobs|
  {
    if |tapBlobs| == 0 then []
    else
      var init := tapBlobs[..|tapBlobs| - 1];
      var rest := CompleteBottles(key, init, levelIds);
      var id := key(tapBlobs[|tapBlobs| - 1]);
      if id in levelIds && id !in rest then Insert(rest, id) else rest
  }

  /** The visiting order is the only ascending arrangement of the common ids. */
  lemma CompleteBottlesUnique(key: string -> string, tapBlobs: seq<string>, levelBlobs: seq<string>,
                              ys: seq<string>)
    requires Ascending(ys)
    requires forall id :: id in ys <==> id in IdMap(key, tapBlobs) && id in IdMap(key, levelBlobs)
    ensures ys == CompleteBottles(key, tapBlobs, IdMap(key, levelBlobs).Keys)
  {
    AscendingUnique(ys, CompleteBottles(key, tapBlobs, IdMap(key, levelBlobs).Keys));
  }

  /** One processing call handed to the processor. */
  datatype Call = Call(bottleId: string, tapBlob: string, levelBlob: string)

  /** How a pass ended: the flag was off at its first check, every complete
      bottle was visited, the flag went off before a bottle, or an exception
      ended the watcher. */
  datatype PassEnd = Idle | Completed | Stopped | Failed(error: string)

  /** The state after a stretch of the pass: the marked entries, the calls
      made, and how it ended. */
  datatype Outcome = Outcome(processed: set<string>, calls: seq<Call>, end: PassEnd)

  /** What the two listings give the loop: the id maps of both containers. */
  datatype Pairing = Pairing(tapContainer: string, levelContainer: string,
                             tap: map<string, string>, level: map<string, string>)

  function Prepend(calls: seq<Call>, o: Outcome): (r: Outcome)
    ensures r.calls == calls + o.calls && r.processed == o.processed && r.end == o.end
  {
    Outcome(o.processed, calls + o.calls, o.end)
  }

  predicate Handled(p: Pairing, processed: set<string>, id: string)
    requires id in p.tap && id in p.level
  {
    Key(p.tapContainer, p.tap[id]) in processed && Key(p.levelContainer, p.level[id]) in processed
  }

  /** The loop over the complete bottles `ids`, from the k-th flag check and
      the n-th processing call on. */
  function Visit(p: Pairing, ids: seq<string>, processed: set<string>,
                 running: nat -> bool, k: nat,
                 processErrors: nat -> Option<string>, n: nat): (o: Outcome)
    requires forall id :: id in ids ==> id in p.tap && id in p.level
    ensures processed <= o.processed
    ensures |o.calls| <= |ids|
    ensures o.end != Idle
    ensures o.end == Stopped ==> exists j :: k <= j < k + |ids| && !running(j)
    decreases |ids|
  {
    if |ids| == 0 then Outcome(processed, [], Completed)
    else if !running(k) then Outcome(processed, [], Stopped)
    else
      var id := ids[0];
      if Handled(p, processed, id) then
        Visit(p, ids[1..], processed, running, k + 1, processErrors, n)
      else
        var marked := processed + {Key(p.tapContainer, p.tap[id]), Key(p.levelContainer, p.level[id])};
        var call := Call(id, p.tap[id], p.level[id]);
        if processErrors(n).Some? then Outcome(marked, [call], Failed(processErrors(n).value))
        else Prepend([call], Visit(p, ids[1..], marked, running, k + 1, processErrors, n + 1))
  }

  /** One pass of `watch_containers`, from the flag check to the sleep. */
  function Pass(tapContainer: string, levelContainer: string,
                listing: Result<(seq<string>, seq<string>)>, processed: set<string>,
                running: nat -> bool, processErrors: nat -> Option<string>): (o: Outcome)
    ensures processed <= o.processed
    ensures o.end == Idle <==> !running(0)
    ensures running(0) && listing.Err? ==> o.end.Failed? && o.calls == []
  {
    if !running(0) then Outcome(processed, [], Idle)
    else if listing.Err? then Outcome(processed, [], Failed(listing.error))
    else
      var (tapBlobs, levelBlobs) := listing.value;
      var p := Pairing(tapContainer, levelContainer, IdMap(GetBottleId, tapBlobs),
                       IdMap(GetBottleId, levelBlobs));
      Visit(p, CompleteBottles(GetBottleId, tapBlobs, p.level.Keys), processed, running, 1, processErrors, 0)
  }

  /** `processed_blobs` only grows, and what it gains is exactly the entries
      of the bottles handed to the processor. */
  lemma {:induction false} VisitMarksCalls(p: Pairing, ids: seq<string>, processed: set<string>,
                                           running: nat -> bool, k: nat,
                                           processErrors: nat -> Option<string>, n: nat)
    requires forall id :: id in ids ==> id in p.tap && id in p.level
    ensures var o := Visit(p, ids, processed, running, k, processErrors, n);
      o.processed == processed
        + (set c | c in o.calls :: Key(p.tapContainer, c.tapBlob))
        + (set c | c in o.calls :: Key(p.levelContainer, c.levelBlob))
    decreases |ids|
  {
    if |ids| > 0 && running(k) {
      var id := ids[0];
      if Handled(p, processed, id) {
        VisitMarksCalls(p, ids[1..], processed, running, k + 1, processErrors, n);
      } else if processErrors(n).None? {
        var marked := processed + {Key(p.tapContainer, p.tap[id]), Key(p.levelContainer, p.level[id])};
        VisitMarksCalls(p, ids[1..], marked, running, k + 1, processErrors, n + 1);
      }
    }
  }

  /** Every bottle handed to the processor is one of the visited ids, with the
      blobs the id maps give, and at least one of its two entries was not yet
      marked when the pass began. */
  lemma {:induction false} VisitCallsAreNew(p: Pairing, ids: seq<string>, processed: set<string>,
                                            running: nat -> bool, k: nat,
                                            processErrors: nat -> Option<string>, n: nat)
    requires forall id :: id in ids ==> id in p.tap && id in p.level
    ensures var o := Visit(p, ids, processed, running, k, processErrors, n);
      forall c :: c in o.calls ==>
        c.bottleId in ids && c.tapBlob == p.tap[c.bottleId] && c.levelBlob == p.level[c.bottleId]
        && !Handled(p, processed, c.bottleId)
    decreases |ids|
  {
    if |ids| > 0 && running(k) {
      var id := ids[0];
      if Handled(p, processed, id) {
        VisitCallsAreNew(p, ids[1..], processed, running, k + 1, processErrors, n);
      } else if processErrors(n).None? {
        var marked := processed + {Key(p.tapContainer, p.tap[id]), Key(p.levelContainer, p.level[id])};
        VisitCallsAreNew(p, ids[1..], marked, running, k + 1, processErrors, n + 1);
      }
    }
  }

  /** The flag is read before every bottle: once it reads false at the j-th
      visited id, no bottle from there on is handed to the processor and the
      pass does not complete. */
  lemma {:induction false} VisitStopsAtFlag(p: Pairing, ids: seq<string>, processed: set<string>,
                                            running: nat -> bool, k: nat,
                                            processErrors: nat -> Option<string>, n: nat, j: nat)
    requires forall id :: id in ids ==> id in p.tap && id in p.level
    requires j < |ids| && !running(k + j)
    ensures var o := Visit(p, ids, processed, running, k, processErrors, n);
      o.end != Completed && forall c :: c in o.calls ==> c.bottleId in ids[..j]
    decreases |ids|
  {
    if running(k) {
      var id := ids[0];
      assert j > 0;
      assert forall x :: x in ids[1..][..j - 1] ==> x in ids[..j];
      if Handled(p, processed, id) {
        VisitStopsAtFlag(p, ids[1..], processed, running, k + 1, processErrors, n, j - 1);
      } else if processErrors(n).None? {
        var marked := processed + {Key(p.tapContainer, p.tap[id]), Key(p.levelContainer, p.level[id])};
        VisitStopsAtFlag(p, ids[1..], marked, running, k + 1, processErrors, n + 1, j - 1);
      }
    }
  }

  predicate CallsAscending(calls: seq<Call>)
  {
    forall a, b :: 0 <= a < b < |calls| ==> Below(calls[a].bottleId, calls[b].bottleId)
  }

  /** The bottles are handed over in ascending id order, each at most once. */
  lemma {:induction false} VisitCallsAscending(p: Pairing, ids: seq<string>, processed: set<string>,
                                               running: nat -> bool, k: nat,
                                               processErrors: nat -> Option<string>, n: nat)
    requires forall id :: id in ids ==> id in p.tap && id in p.level
    requires Ascending(ids)
    ensures CallsAscending(Visit(p, ids, processed, running, k, processErrors, n).calls)
    decreases |ids|
  {
    if |ids| > 0 && running(k) {
      var id := ids[0];
      var rest := ids[1..];
      assert Ascending(rest);
      if Handled(p, processed, id) {
        var o := Visit(p, rest, processed, running, k + 1, processErrors, n);
        assert Visit(p, ids, processed, running, k, processErrors, n) == o;
        VisitCallsAscending(p, rest, processed, running, k + 1, processErrors, n);
      } else if processErrors(n).None? {
        var marked := processed + {Key(p.tapContainer, p.tap[id]), Key(p.levelContainer, p.level[id])};
        VisitCallsAscending(p, rest, marked, running, k + 1, processErrors, n + 1);
        VisitCallsAreNew(p, rest, marked, running, k + 1, processErrors, n + 1);
        var o := Visit(p, rest, marked, running, k + 1, processErrors, n + 1);
        forall b | 0 <= b < |o.calls| ensures Below(id, o.calls[b].bottleId) {
          var i :| 0 <= i < |rest| && rest[i] == o.calls[b].bottleId;
          assert ids[i + 1] == rest[i];
        }
      } else {
        assert |Visit(p, ids, processed, running, k, processErrors, n).calls| == 1;
      }
    }
  }

  /** The ids of the bottles handed to the processor. */
  function CallIds(calls: seq<Call>): set<string>
  {
    set c | c in calls :: c.bottleId
  }

  /** No entry of one bottle is also an entry of another bottle. */
  predicate Separated(p: Pairing, ids: seq<string>)
    requires forall id :: id in ids ==> id in p.tap && id in p.level
  {
    forall a, b :: a in ids && b in ids && a != b ==>
      && Key(p.tapContainer, p.tap[a]) != Key(p.tapContainer, p.tap[b])
      && Key(p.tapContainer, p.tap[a]) != Key(p.levelContainer, p.level[b])
      && Key(p.levelContainer, p.level[a]) != Key(p.levelContainer, p.level[b])
  }

  /** The converse of `VisitCallsAreNew`: when the loop runs to the end, every
      visited bottle that was not handled when the pass began is handed to
      the processor. */
  lemma {:induction false} VisitCompletedHandlesEveryNew(p: Pairing, ids: seq<string>,
                                                         processed: set<string>,
                                                         running: nat -> bool, k: nat,
                                                         processErrors: nat -> Option<string>, n: nat)
    requires forall id :: id in ids ==> id in p.tap && id in p.level
    requires Ascending(ids) && Separated(p, ids)
    ensures var o := Visit(p, ids, processed, running, k, processErrors, n);
      o.end == Completed ==>
        forall id :: id in ids && !Handled(p, processed, id) ==> id in CallIds(o.calls)
    decreases |ids|
  {
    if |ids| > 0 && running(k) {
      var id := ids[0];
      var rest := ids[1..];
      assert Ascending(rest);
      assert forall x :: x in ids && x != id ==> x in rest by {
        forall x | x in ids && x != id ensures x in rest {
          var i :| 0 <= i < |ids| && ids[i] == x;
          assert rest[i - 1] == x;
        }
      }
      if Handled(p, processed, id) {
        VisitCompletedHandlesEveryNew(p, rest, processed, running, k + 1, processErrors, n);
      } else if processErrors(n).None? {
        var marked := processed + {Key(p.tapContainer, p.tap[id]), Key(p.levelContainer, p.level[id])};
        VisitCompletedHandlesEveryNew(p, rest, marked, running, k + 1, processErrors, n + 1);
        BelowIrreflexive(id);
        forall x | x in rest && !Handled(p, processed, x) ensures !Handled(p, marked, x) {
          var i :| 0 <= i < |rest| && rest[i] == x;
          assert ids[i + 1] == x && Below(ids[0], ids[i + 1]);
        }
      }
    }
  }

  /** Entries of two differently named containers never coincide when
      neither name holds a slash. */
  lemma KeyContainersDiffer(c1: string, c2: string, x: string, y: string)
    requires '/' !in c1 && '/' !in c2 && c1 != c2
    ensures Key(c1, x) != Key(c2, y)
  {
    // the first slash of an entry ends its container name
    if |c1| < |c2| {
      assert Key(c2, y)[|c1|] == c2[|c1|] != '/';
    } else if |c2| < |c1| {
      assert Key(c1, x)[|c2|] == c1[|c2|] != '/';
    }
  }

  /** A pass that runs to the end hands over exactly the complete bottles
      that were not yet handled: with `VisitCallsAreNew`, a bottle is skipped
      iff both its entries were already marked. The container names come
      from the configuration, differ, and hold no slash. */
  lemma PassCompletedHandlesEveryNew(tapContainer: string, levelContainer: string,
                                     listing: Result<(seq<string>, seq<string>)>, processed: set<string>,
                                     running: nat -> bool, processErrors: nat -> Option<string>)
    requires '/' !in tapContainer && '/' !in levelContainer && tapContainer != levelContainer
    ensures var o := Pass(tapContainer, levelContainer, listing, processed, running, processErrors);
      o.end == Completed ==>
        listing.Ok? &&
        var tap := IdMap(GetBottleId, listing.value.0);
        var level := IdMap(GetBottleId, listing.value.1);
        forall id :: id in tap && id in level
          && !(Key(tapContainer, tap[id]) in processed && Key(levelContainer, level[id]) in processed)
          ==> id in CallIds(o.calls)
  {
    if running(0) && listing.Ok? {
      var (tapBlobs, levelBlobs) := listing.value;
      var p := Pairing(tapContainer, levelContainer, IdMap(GetBottleId, tapBlobs),
                       IdMap(GetBottleId, levelBlobs));
      var ids := CompleteBottles(GetBottleId, tapBlobs, p.level.Keys);
      forall a, b | a in ids && b in ids && a != b
        ensures && Key(p.tapContainer, p.tap[a]) != Key(p.tapContainer, p.tap[b])
                && Key(p.tapContainer, p.tap[a]) != Key(p.levelContainer, p.level[b])
                && Key(p.levelContainer, p.level[a]) != Key(p.levelContainer, p.level[b])
      {
        KeyInjective(tapContainer, p.tap[a], p.tap[b]);
        KeyInjective(levelContainer, p.level[a], p.level[b]);
        KeyContainersDiffer(tapContainer, levelContainer, p.tap[a], p.level[b]);
      }
      VisitCompletedHandlesEveryNew(p, ids, processed, running, 1, processErrors, 0);
    }
  }

  /** The watcher's module-level state; the two container names come from
      the configuration. */
  class Watcher {
    var processedBlobs: set<string>
    const tapContainer: string
    const levelContainer: string

    constructor (tapContainer: string, levelContainer: string)
      ensures processedBlobs == {}
      ensures this.tapContainer == tapContainer && this.levelContainer == levelContainer
    {
      this.tapContainer := tapContainer;
      this.levelContainer := levelContainer;
      processedBlobs := {};
    }

    /** The initial marking: every blob already in either container is
        marked. A failed listing is logged and marks nothing. */
    method MarkInitial(listing: Result<(seq<string>, seq<string>)>)
      modifies this
      ensures listing.Err? ==> processedBlobs == old(processedBlobs)
      ensures listing.Ok? ==>
        processedBlobs == old(processedBlobs)
          + Keys(tapContainer, listing.value.0) + Keys(levelContainer, listing.value.1)
    {
      if listing.Err? {
        return;
      }
      var (tapBlobs, levelBlobs) := listing.value;
      for i := 0 to |tapBlobs|
        invariant processedBlobs == old(processedBlobs) + Keys(tapContainer, tapBlobs[..i])
      {
        assert tapBlobs[..i + 1] == tapBlobs[..i] + [tapBlobs[i]];
        processedBlobs := processedBlobs + {Key(tapContainer, tapBlobs[i])};
      }
      assert tapBlobs[..|tapBlobs|] == tapBlobs;
      for i := 0 to |levelBlobs|
        invariant processedBlobs == old(processedBlobs) + Keys(tapContainer, tapBlobs)
          + Keys(levelContainer, levelBlobs[..i])
      {
        assert levelBlobs[..i + 1] == levelBlobs[..i] + [levelBlobs[i]];
        processedBlobs := processedBlobs + {Key(levelContainer, levelBlobs[i])};
      }
      assert levelBlobs[..|levelBlobs|] == levelBlobs;
    }

    /** One pass of the polling loop. */
    method PollOnce(listing: Result<(seq<string>, seq<string>)>,
                    running: nat -> bool, processErrors: nat -> Option<string>)
      returns (calls: seq<Call>, end: PassEnd)
      modifies this
      ensures Outcome(processedBlobs, calls, end)
        == Pass(tapContainer, levelContainer, listing, old(processedBlobs), running, processErrors)
    {
      calls := [];
      if !running(0) {
        return calls, Idle;
      }
      if listing.Err? {
        return calls, Failed(listing.error);
      }
      var (tapBlobs, levelBlobs) := listing.value;
      var bottlesTap := IdMap(GetBottleId, tapBlobs);
      var bottlesLevel := IdMap(GetBottleId, levelBlobs);
      var p := Pairing(tapContainer, levelContainer, bottlesTap, bottlesLevel);
      var ids := CompleteBottles(GetBottleId, tapBlobs, bottlesLevel.Keys);
      calls, end := VisitAll(p, ids, running, processErrors);
    }

    /** The `for bottle_id in complete_bottles` loop. */
    method VisitAll(p: Pairing, ids: seq<string>,
                    running: nat -> bool, processErrors: nat -> Option<string>)
      returns (calls: seq<Call>, end: PassEnd)
      requires p.tapContainer == tapContainer && p.levelContainer == levelContainer
      requires forall id :: id in ids ==> id in p.tap && id in p.level
      modifies this
      ensures Outcome(processedBlobs, calls, end)
        == Visit(p, ids, old(processedBlobs), running, 1, processErrors, 0)
    {
      calls := [];
      ghost var whole := Visit(p, ids, processedBlobs, running, 1, processErrors, 0);
      var i := 0;
      while i < |ids|
        invariant 0 <= i <= |ids|
        invariant whole == Prepend(calls, Visit(p, ids[i..], processedBlobs, running, 1 + i, processErrors, |calls|))
      {
        assert ids[i..][1..] == ids[i + 1..];
        var id := ids[i];
        if !running(1 + i) {
          return calls, Stopped;
        }
        var tapBlob := p.tap[id];
        var levelBlob := p.level[id];
        var tapId := Key(tapContainer, tapBlob);
        var levelId := Key(levelContainer, levelBlob);
        if !(tapId in processedBlobs && levelId in processedBlobs) {
          ghost var before := processedBlobs;
          processedBlobs := processedBlobs + {tapId, levelId};
          var n := |calls|;
          var call := Call(id, tapBlob, levelBlob);
          if processErrors(n).Some? {
            assert Visit(p, ids[i..], before, running, 1 + i, processErrors, n)
              == Outcome(processedBlobs, [call], Failed(processErrors(n).value));
            calls := calls + [call];
            return calls, Failed(processErrors(n).value);
          }
          ghost var rest := Visit(p, ids[i + 1..], processedBlobs, running, 2 + i, processErrors, n + 1);
          assert Visit(p, ids[i..], before, running, 1 + i, processErrors, n) == Prepend([call], rest);
          assert calls + ([call] + rest.calls) == (calls + [call]) + rest.calls;
          calls := calls + [call];
        } else {
          assert Visit(p, ids[i..], processedBlobs, running, 1 + i, processErrors, |calls|)
            == Visit(p, ids[i + 1..], processedBlobs, running, 2 + i, processErrors, |calls|);
        }
        i := i + 1;
      }
      end := Completed;
    }
  }

  /** Bottles whose two images were both present when the watcher started are
      never processed: a pass after the initial marking hands over only
      bottles with at least one blob that was not listed then. */
  lemma PreExistingNeverProcessed(tapContainer: string, levelContainer: string,
                                  initialTap: seq<string>, initialLevel: seq<string>,
                                  processed: set<string>,
                                  listing: Result<(seq<string>, seq<string>)>,
                                  running: nat -> bool, processErrors: nat -> Option<string>)
    requires Keys(tapContainer, initialTap) + Keys(levelContainer, initialLevel) <= processed
    ensures forall c :: c in Pass(tapContainer, levelContainer, listing, processed, running, processErrors).calls ==>
      !(c.tapBlob in initialTap && c.levelBlob in initialLevel)
  {
    if running(0) && listing.Ok? {
      var (tapBlobs, levelBlobs) := listing.value;
      var p := Pairing(tapContainer, levelContainer, IdMap(GetBottleId, tapBlobs),
                       IdMap(GetBottleId, levelBlobs));
      var ids := CompleteBottles(GetBottleId, tapBlobs, p.level.Keys);
      VisitCallsAreNew(p, ids, processed, running, 1, processErrors, 0);
      var o := Visit(p, ids, processed, running, 1, processErrors, 0);
      forall c | c in o.calls ensures !(c.tapBlob in initialTap && c.levelBlob in initialLevel) {
        assert c.tapBlob in initialTap ==> Key(tapContainer, c.tapBlob) in Keys(tapContainer, initialTap);
        assert c.levelBlob in initialLevel ==> Key(levelContainer, c.levelBlob) in Keys(levelContainer, initialLevel);
        assert !Handled(p, processed, c.bottleId);
      }
    }
  }
}
