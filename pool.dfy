/** Values describing the worker pool of `startGeneration` (App.tsx:243-273). */
module GenerationPool {
  import opened Common
  import opened Gallery
  import opened JsObject

  /** Where one of the `concurrencyLimit` async workers is: at the head of its
      `while (decadesQueue.length > 0)` loop, suspended on the generation call
      for a decade, or returned. */
  datatype WorkerState = AtLoopHead | Awaiting(decade: string) | Exited

  /** One call `generateDecadeImage(image, Prompt(decade))`, recorded by the
      decade whose prompt it sends. */
  datatype GenerationCall = GenerationCall(image: string, decade: string)

  /** The prompt text the call sends. */
  function PromptOf(call: GenerationCall): (prompt: string)
    ensures prompt == Prompt(call.decade)
  {
    Prompt(call.decade)
  }

  /** Recording the decade loses nothing: calls that send the same photo and
      the same prompt are the same call. */
  lemma CallsIdentifiedByPrompt(a: GenerationCall, b: GenerationCall)
    requires a.image == b.image && PromptOf(a) == PromptOf(b)
    ensures a == b
  {
    PromptIdentifiesDecade(a.decade, b.decade);
  }

  /** The dequeued labels that pass `if (decade)` (App.tsx:267), in order. */
  function Requested(dequeued: seq<string>): seq<string>
  {
    if dequeued == [] then []
    else Requested(dequeued[..|dequeued| - 1]) + (if dequeued[|dequeued| - 1] != "" then [dequeued[|dequeued| - 1]] else [])
  }

  lemma RequestedAppend(dequeued: seq<string>, d: string)
    ensures Requested(dequeued + [d]) == Requested(dequeued) + if d != "" then [d] else []
  {
    assert (dequeued + [d])[..|dequeued + [d]| - 1] == dequeued;
  }

  /** Every non-empty label is requested. */
  lemma {:induction false} RequestedNonEmpty(labels: seq<string>)
    requires forall i :: 0 <= i < |labels| ==> labels[i] != ""
    ensures Requested(labels) == labels
  {
    if labels != [] {
      var init := labels[..|labels| - 1];
      RequestedNonEmpty(init);
      assert init + [labels[|labels| - 1]] == labels;
    }
  }

  /** The calls made for `labels`, one per label and in order. */
  function CallsFor(image: string, labels: seq<string>): (calls: seq<GenerationCall>)
    ensures |calls| == |labels|
  {
    if labels == [] then []
    else CallsFor(image, labels[..|labels| - 1]) + [GenerationCall(image, labels[|labels| - 1])]
  }

  lemma CallsForSnoc(image: string, labels: seq<string>, d: string)
    ensures CallsFor(image, labels + [d]) == CallsFor(image, labels) + [GenerationCall(image, d)]
  {
    assert (labels + [d])[..|labels|] == labels;
  }

  /** Dequeuing a non-empty label adds exactly its call. */
  lemma CallsForRequested(image: string, dequeued: seq<string>, d: string)
    requires d != ""
    ensures CallsFor(image, Requested(dequeued + [d])) == CallsFor(image, Requested(dequeued)) + [GenerationCall(image, d)]
  {
    var r := Requested(dequeued);
    RequestedAppend(dequeued, d);
    assert Requested(dequeued + [d]) == r + [d];
    CallsForSnoc(image, r, d);
  }

  lemma CallsForFirstTwo(image: string, labels: seq<string>)
    requires |labels| >= 2
    ensures CallsFor(image, labels[..2]) ==
      [GenerationCall(image, labels[0]), GenerationCall(image, labels[1])]
  {
    assert labels[..2] == [labels[0]] + [labels[1]];
    CallsForSnoc(image, [labels[0]], labels[1]);
    CallsForSnoc(image, [], labels[0]);
    assert [] + [labels[0]] == [labels[0]];
  }

  /** The first two decades, which the two workers request first. */
  lemma FirstTwoDecades(image: string)
    ensures |Decades| > 2 && Decades[0] != "" && Decades[1] != "" && Decades[1..][0] == Decades[1]
    ensures CallsFor(image, Decades[..2]) ==
      [GenerationCall(image, Decades[0]), GenerationCall(image, Decades[1])]
  {
    CallsForFirstTwo(image, Decades);
  }

  /** Some worker is suspended on the call for `d`. */
  predicate Awaits(workers: seq<WorkerState>, d: string)
  {
    exists w :: 0 <= w < |workers| && workers[w] == Awaiting(d)
  }

  /** No two workers wait on the same decade. */
  predicate AwaitDistinct(workers: seq<WorkerState>)
  {
    forall v, u :: 0 <= v < u < |workers| && workers[v].Awaiting? && workers[u].Awaiting? ==>
      workers[v].decade != workers[u].decade
  }

  predicate AllExited(workers: seq<WorkerState>)
  {
    forall w :: 0 <= w < |workers| ==> workers[w].Exited?
  }

  /** How many workers have not returned yet. */
  function Running(workers: seq<WorkerState>): (n: nat)
    ensures n <= |workers|
    ensures n == 0 <==> AllExited(workers)
  {
    if workers == [] then 0
    else (if workers[0].Exited? then 0 else 1) + Running(workers[1..])
  }

  lemma {:induction false} RunningUpdate(workers: seq<WorkerState>, w: nat, s: WorkerState)
    requires w < |workers|
    ensures Running(workers[w := s]) + (if workers[w].Exited? then 0 else 1)
         == Running(workers) + (if s.Exited? then 0 else 1)
  {
    if w > 0 {
      assert workers[w := s][1..] == workers[1..][w - 1 := s];
      RunningUpdate(workers[1..], w - 1, s);
    } else {
      var u := workers[w := s];
      assert u[0] == s && u[1..] == workers[1..];
      assert Running(u) == (if s.Exited? then 0 else 1) + Running(workers[1..]);
      assert Running(workers) == (if workers[0].Exited? then 0 else 1) + Running(workers[1..]);
    }
  }

  /** The decades with a generation call in flight, in worker order. */
  function InFlight(workers: seq<WorkerState>): (decades: seq<string>)
    ensures |decades| <= |workers|
    ensures forall d :: d in decades <==> Awaits(workers, d)
  {
    if workers == [] then []
    else
      var rest := InFlight(workers[1..]);
      assert forall d :: Awaits(workers[1..], d) ==> Awaits(workers, d) by {
        forall d | Awaits(workers[1..], d) ensures Awaits(workers, d) {
          var w :| 0 <= w < |workers[1..]| && workers[1..][w] == Awaiting(d);
          assert workers[w + 1] == Awaiting(d);
        }
      }
      assert forall d :: Awaits(workers, d) && workers[0] != Awaiting(d) ==> Awaits(workers[1..], d) by {
        forall d | Awaits(workers, d) && workers[0] != Awaiting(d) ensures Awaits(workers[1..], d) {
          var w :| 0 <= w < |workers| && workers[w] == Awaiting(d);
          assert workers[1..][w - 1] == Awaiting(d);
        }
      }
      (if workers[0].Awaiting? then [workers[0].decade] else []) + rest
  }

  /** At most `concurrencyLimit` generation calls are in flight at once, and
      no two for the same decade. */
  lemma InFlightBound(workers: seq<WorkerState>)
    requires |workers| == ConcurrencyLimit && AwaitDistinct(workers)
    ensures |InFlight(workers)| <= ConcurrencyLimit
    ensures Distinct(InFlight(workers))
  {
    InFlightDistinct(workers);
  }

  lemma {:induction false} InFlightDistinct(workers: seq<WorkerState>)
    requires AwaitDistinct(workers)
    ensures Distinct(InFlight(workers))
  {
    if workers != [] {
      var tail := workers[1..];
      assert AwaitDistinct(tail) by {
        forall v, u | 0 <= v < u < |tail| && tail[v].Awaiting? && tail[u].Awaiting? ensures tail[v].decade != tail[u].decade {
          assert tail[v] == workers[v + 1] && tail[u] == workers[u + 1];
        }
      }
      InFlightDistinct(tail);
      if workers[0].Awaiting? {
        var d := workers[0].decade;
        assert d !in InFlight(tail);
        DistinctCons(d, InFlight(tail));
      }
    }
  }

  /** A worker that is not waiting can be set to any state; the set of
      awaited decades changes by that state alone. */
  lemma AwaitsSet(workers: seq<WorkerState>, w: nat, s: WorkerState)
    requires w < |workers| && !workers[w].Awaiting?
    ensures forall d :: Awaits(workers[w := s], d) <==> Awaits(workers, d) || s == Awaiting(d)
  {
    forall d ensures Awaits(workers[w := s], d) <==> Awaits(workers, d) || s == Awaiting(d) {
      if Awaits(workers, d) {
        var v :| 0 <= v < |workers| && workers[v] == Awaiting(d);
        assert workers[w := s][v] == Awaiting(d);
      }
      if s == Awaiting(d) {
        assert workers[w := s][w] == Awaiting(d);
      }
      if Awaits(workers[w := s], d) && s != Awaiting(d) {
        var v :| 0 <= v < |workers| && workers[w := s][v] == Awaiting(d);
        assert workers[v] == Awaiting(d);
      }
    }
  }

  /** A waiting worker sent back to its loop head no longer waits, and no
      other worker waits for its decade. */
  lemma AwaitsClear(workers: seq<WorkerState>, w: nat)
    requires w < |workers| && workers[w].Awaiting? && AwaitDistinct(workers)
    ensures forall d :: Awaits(workers[w := AtLoopHead], d) <==> Awaits(workers, d) && d != workers[w].decade
  {
    var ws := workers[w := AtLoopHead];
    forall d ensures Awaits(ws, d) <==> Awaits(workers, d) && d != workers[w].decade {
      if Awaits(ws, d) {
        var v :| 0 <= v < |ws| && ws[v] == Awaiting(d);
        assert v != w && workers[v] == Awaiting(d);
      }
      if Awaits(workers, d) && d != workers[w].decade {
        var v :| 0 <= v < |workers| && workers[v] == Awaiting(d);
        assert ws[v] == Awaiting(d);
      }
    }
  }

  lemma DistinctSplit<T>(a: seq<T>, b: seq<T>)
    requires Distinct(a + b)
    ensures Distinct(b)
    ensures forall x :: x in b ==> x !in a
  {
    forall i, j | 0 <= i < j < |b| ensures b[i] != b[j] {
      assert b[i] == (a + b)[|a| + i] && b[j] == (a + b)[|a| + j];
    }
    forall x | x in b ensures x !in a {
      var j :| 0 <= j < |b| && b[j] == x;
      forall i | 0 <= i < |a| ensures a[i] != x {
        assert a[i] == (a + b)[i] && x == (a + b)[|a| + j];
      }
    }
  }

  /** The pool while `startGeneration` runs over the distinct labels
      `labels`: the queue is what is left of them after the dequeued ones;
      every record exists; one call was made per requested label; waiting
      workers hold distinct dequeued labels; a worker returns only once the
      queue is empty; and a label's record is pending exactly while it is
      queued or awaited. */
  ghost predicate Inv(labels: seq<string>, image: string, images: Images, queue: seq<string>, dequeued: seq<string>,
                      workers: seq<WorkerState>, calls: seq<GenerationCall>)
  {
    && |workers| == ConcurrencyLimit
    && dequeued + queue == labels
    && Keys(images) == labels
    && calls == CallsFor(image, Requested(dequeued))
    && (forall w :: 0 <= w < |workers| && workers[w].Awaiting? ==>
          workers[w].decade in dequeued && workers[w].decade != "")
    && AwaitDistinct(workers)
    && (forall w :: 0 <= w < |workers| && workers[w].Exited? ==> queue == [])
    && (forall d :: d in labels && d != "" ==>
          (Get(images, d) == Some(Pending) <==> d in queue || Awaits(workers, d)))
  }

  /** Every settled record is the one its generation call settled to. */
  ghost predicate Recorded(labels: seq<string>, images: Images, oracle: string -> Settlement)
  {
    forall d :: d in labels && d != "" && Get(images, d).Some? && !Get(images, d).value.Pending? ==>
      Get(images, d) == Some(RecordOf(oracle(d)))
  }

  /** `startGeneration` sets every label pending and both workers at their
      loop heads. */
  lemma StartInv(labels: seq<string>, image: string, images: Images)
    requires Distinct(labels) && Keys(images) == labels
    requires forall e :: e in images ==> e.1 == Pending
    ensures Inv(labels, image, images, labels, [], [AtLoopHead, AtLoopHead], [])
  {
    assert [] + labels == labels;
    forall d | d in labels && d != "" ensures Get(images, d) == Some(Pending) {
      GetSomeIffKey(images, d);
      GetFound(images, d);
    }
  }

  /** While every record is pending, none contradicts any outcome. */
  lemma PendingRecorded(labels: seq<string>, images: Images, oracle: string -> Settlement)
    requires forall e :: e in images ==> e.1 == Pending
    ensures Recorded(labels, images, oracle)
  {
    forall d | Get(images, d).Some? ensures Get(images, d) == Some(Pending) {
      GetFound(images, d);
    }
  }

  /** `decadesQueue.shift()` of a non-empty label and the call of
      `processDecade` for it, up to its `await`. */
  lemma DequeueCall(labels: seq<string>, image: string, images: Images, queue: seq<string>, dequeued: seq<string>,
                    workers: seq<WorkerState>, calls: seq<GenerationCall>, w: nat)
    requires Distinct(labels) && Inv(labels, image, images, queue, dequeued, workers, calls)
    requires w < |workers| && workers[w].AtLoopHead? && queue != [] && queue[0] != ""
    ensures Inv(labels, image, images, queue[1..], dequeued + [queue[0]], workers[w := Awaiting(queue[0])],
                calls + [GenerationCall(image, queue[0])])
  {
    DequeueFacts(labels, queue, dequeued, queue[0]);
    DequeueNew(labels, image, images, queue, dequeued, workers, calls, w);
  }

  /** `DequeueCall` once the dequeued label is known to be new. */
  lemma DequeueNew(labels: seq<string>, image: string, images: Images, queue: seq<string>, dequeued: seq<string>,
                   workers: seq<WorkerState>, calls: seq<GenerationCall>, w: nat)
    requires Inv(labels, image, images, queue, dequeued, workers, calls)
    requires w < |workers| && workers[w].AtLoopHead? && queue != [] && queue[0] != ""
    requires (dequeued + [queue[0]]) + queue[1..] == labels && queue[0] !in dequeued
    requires forall x :: x in queue <==> x == queue[0] || x in queue[1..]
    ensures Inv(labels, image, images, queue[1..], dequeued + [queue[0]], workers[w := Awaiting(queue[0])],
                calls + [GenerationCall(image, queue[0])])
  {
    var d := queue[0];
    assert forall v :: 0 <= v < |workers| ==> !workers[v].Exited?;
    CallsForRequested(image, dequeued, d);
    AwaitsSet(workers, w, Awaiting(d));
    AwaitDistinctSet(workers, w, d, dequeued);
    var ws := workers[w := Awaiting(d)];
    forall v | 0 <= v < |ws| && ws[v].Awaiting? ensures ws[v].decade in dequeued + [d] && ws[v].decade != "" {
      if v != w {
        assert ws[v] == workers[v] && workers[v].decade in dequeued;
      }
    }
    assert forall v :: 0 <= v < |ws| ==> !ws[v].Exited?;
  }

  /** A worker that starts waiting on a label not yet dequeued waits on a
      label no other worker waits on. */
  lemma AwaitDistinctSet(workers: seq<WorkerState>, w: nat, d: string, dequeued: seq<string>)
    requires w < |workers| && !workers[w].Awaiting? && AwaitDistinct(workers) && d !in dequeued
    requires forall v :: 0 <= v < |workers| && workers[v].Awaiting? ==> workers[v].decade in dequeued
    ensures AwaitDistinct(workers[w := Awaiting(d)])
  {
    var ws := workers[w := Awaiting(d)];
    forall v, u | 0 <= v < u < |ws| && ws[v].Awaiting? && ws[u].Awaiting? ensures ws[v].decade != ws[u].decade {
      if v == w {
        assert ws[u] == workers[u];
      } else if u == w {
        assert ws[v] == workers[v];
      } else {
        assert ws[u] == workers[u] && ws[v] == workers[v];
      }
    }
  }

  /** `decadesQueue.shift()` of an empty label, which `if (decade)` skips. */
  lemma DequeueSkip(labels: seq<string>, image: string, images: Images, queue: seq<string>, dequeued: seq<string>,
                    workers: seq<WorkerState>, calls: seq<GenerationCall>, w: nat)
    requires Distinct(labels) && Inv(labels, image, images, queue, dequeued, workers, calls)
    requires w < |workers| && workers[w].AtLoopHead? && queue != [] && queue[0] == ""
    ensures Inv(labels, image, images, queue[1..], dequeued + [queue[0]], workers, calls)
  {
    DequeueFacts(labels, queue, dequeued, queue[0]);
    RequestedAppend(dequeued, queue[0]);
    assert Requested(dequeued) + [] == Requested(dequeued);
  }

  lemma DequeueFacts(labels: seq<string>, queue: seq<string>, dequeued: seq<string>, d: string)
    requires Distinct(labels) && dequeued + queue == labels && queue != [] && d == queue[0]
    ensures (dequeued + [d]) + queue[1..] == labels
    ensures d !in dequeued
    ensures forall x :: x in queue <==> x == d || x in queue[1..]
  {
    assert dequeued + [d] + queue[1..] == dequeued + queue;
    DistinctSplit(dequeued, queue);
    assert queue == [d] + queue[1..];
  }

  /** A worker finding the queue empty returns. */
  lemma ExitStep(labels: seq<string>, image: string, images: Images, queue: seq<string>, dequeued: seq<string>,
                 workers: seq<WorkerState>, calls: seq<GenerationCall>, w: nat)
    requires Inv(labels, image, images, queue, dequeued, workers, calls)
    requires w < |workers| && workers[w].AtLoopHead? && queue == []
    ensures Inv(labels, image, images, queue, dequeued, workers[w := Exited], calls)
  {
    AwaitsSet(workers, w, Exited);
  }

  /** The generation call of worker `w` settles and its record is written;
      the worker is back at its loop head. */
  lemma CompleteStep(labels: seq<string>, image: string, images: Images, queue: seq<string>, dequeued: seq<string>,
                     workers: seq<WorkerState>, calls: seq<GenerationCall>, w: nat, r: ImageRecord)
    requires Distinct(labels) && Inv(labels, image, images, queue, dequeued, workers, calls)
    requires w < |workers| && workers[w].Awaiting? && !r.Pending?
    ensures Inv(labels, image, Put(images, workers[w].decade, r), queue, dequeued, workers[w := AtLoopHead], calls)
  {
    var d := workers[w].decade;
    DistinctSplit(dequeued, queue);
    assert d in labels by {
      assert forall x :: x in dequeued ==> x in dequeued + queue;
    }
    CompleteNew(labels, image, images, queue, dequeued, workers, calls, w, r);
  }

  /** `CompleteStep` once the settled label is known to be a label no longer
      in the queue. */
  lemma CompleteNew(labels: seq<string>, image: string, images: Images, queue: seq<string>, dequeued: seq<string>,
                    workers: seq<WorkerState>, calls: seq<GenerationCall>, w: nat, r: ImageRecord)
    requires Inv(labels, image, images, queue, dequeued, workers, calls)
    requires w < |workers| && workers[w].Awaiting? && !r.Pending?
    requires workers[w].decade in labels && workers[w].decade !in queue
    ensures Inv(labels, image, Put(images, workers[w].decade, r), queue, dequeued, workers[w := AtLoopHead], calls)
  {
    var d := workers[w].decade;
    var ws := workers[w := AtLoopHead];
    var images' := Put(images, d, r);
    AwaitsClear(workers, w);
    assert Keys(images') == labels;
    forall v | 0 <= v < |ws| && !ws[v].AtLoopHead? ensures ws[v] == workers[v] {
    }
    forall x | x in labels && x != "" ensures Get(images', x) == Some(Pending) <==> x in queue || Awaits(ws, x) {
      if x == d {
        assert Get(images', x) == Some(r);
      } else {
        assert Get(images', x) == Get(images, x);
      }
    }
  }

  lemma CompleteRecorded(labels: seq<string>, images: Images, oracle: string -> Settlement, d: string)
    requires Recorded(labels, images, oracle)
    ensures Recorded(labels, Put(images, d, RecordOf(oracle(d))), oracle)
  {
  }

  /** Once every worker has returned, every label was dequeued, every
      non-empty one was called for and none of their records is pending;
      with no empty label, the gallery is complete. */
  lemma Finished(labels: seq<string>, image: string, images: Images, queue: seq<string>, dequeued: seq<string>,
                 workers: seq<WorkerState>, calls: seq<GenerationCall>)
    requires Distinct(labels) && Inv(labels, image, images, queue, dequeued, workers, calls)
    requires AllExited(workers)
    ensures queue == [] && dequeued == labels
    ensures calls == CallsFor(image, Requested(labels))
    ensures forall i :: 0 <= i < |labels| && labels[i] != "" ==>
      Get(images, labels[i]).Some? && !Get(images, labels[i]).value.Pending?
    ensures |labels| > 0 && (forall i :: 0 <= i < |labels| ==> labels[i] != "") ==> AllDone(images)
  {
    assert workers[0].Exited?;
    assert dequeued + [] == dequeued;
    forall i | 0 <= i < |labels| && labels[i] != "" ensures Get(images, labels[i]).Some? && !Get(images, labels[i]).value.Pending? {
      GetSomeIffKey(images, labels[i]);
    }
    if |labels| > 0 && (forall i :: 0 <= i < |labels| ==> labels[i] != "") {
      forall i | 0 <= i < |images| ensures !images[i].1.Pending? {
        KeysAt(images, i);
        GetAt(images, i);
      }
      KeysLength(images);
    }
  }

  /** `startGeneration` over `DECADES`. */
  lemma StartDecades(image: string, images: Images)
    requires Keys(images) == Decades
    requires forall e :: e in images ==> e.1 == Pending
    ensures Inv(Decades, image, images, Decades, [], [AtLoopHead, AtLoopHead], [])
  {
    DecadesWellFormed();
    StartInv(Decades, image, images);
  }

  /** Once every worker over `DECADES` has returned, every decade was called
      for in order and holds the record its call settled to. */
  lemma FinishedDecades(image: string, images: Images, queue: seq<string>, dequeued: seq<string>,
                        workers: seq<WorkerState>, calls: seq<GenerationCall>, oracle: string -> Settlement)
    requires Inv(Decades, image, images, queue, dequeued, workers, calls)
    requires AllExited(workers) && Recorded(Decades, images, oracle)
    ensures queue == [] && dequeued == Decades
    ensures calls == CallsFor(image, Decades)
    ensures forall i :: 0 <= i < |Decades| ==> Get(images, Decades[i]) == Some(RecordOf(oracle(Decades[i])))
    ensures AllDone(images)
  {
    DecadesWellFormed();
    Finished(Decades, image, images, queue, dequeued, workers, calls);
    RequestedNonEmpty(Decades);
  }

  /** `CompleteStep` over `DECADES`. */
  lemma CompleteDecades(image: string, images: Images, queue: seq<string>, dequeued: seq<string>,
                        workers: seq<WorkerState>, calls: seq<GenerationCall>, w: nat, r: ImageRecord)
    requires Inv(Decades, image, images, queue, dequeued, workers, calls)
    requires w < |workers| && workers[w].Awaiting? && !r.Pending?
    ensures Inv(Decades, image, Put(images, workers[w].decade, r), queue, dequeued, workers[w := AtLoopHead], calls)
  {
    DecadesWellFormed();
    CompleteStep(Decades, image, images, queue, dequeued, workers, calls, w, r);
  }

  /** One dequeue over `DECADES`: `DequeueCall` for a label, `DequeueSkip`
      for an empty one. */
  lemma ShiftDecades(image: string, images: Images, queue: seq<string>, dequeued: seq<string>,
                     workers: seq<WorkerState>, calls: seq<GenerationCall>, w: nat)
    requires Inv(Decades, image, images, queue, dequeued, workers, calls)
    requires w < |workers| && workers[w].AtLoopHead? && queue != []
    ensures queue[0] != "" ==>
      Inv(Decades, image, images, queue[1..], dequeued + [queue[0]], workers[w := Awaiting(queue[0])],
          calls + [GenerationCall(image, queue[0])])
    ensures queue[0] == "" ==> Inv(Decades, image, images, queue[1..], dequeued + [queue[0]], workers, calls)
  {
    DecadesWellFormed();
    if queue[0] != "" {
      DequeueCall(Decades, image, images, queue, dequeued, workers, calls, w);
    } else {
      DequeueSkip(Decades, image, images, queue, dequeued, workers, calls, w);
    }
  }
}
