/** BufferList: launches one asynchronous decode task per HRIR file and
    settles a promise once every task has reported. Decoding and fetching
    are abstracted into the events that their callbacks deliver. */
module BufferLists {
  import opened Outcomes
  import opened AudioBuffers

  datatype DataType = Base64 | Url

  /** The options object may select "url"; every other value (including a
      missing option) keeps the default, base64. */
  function ChooseDataType(requested: Option<string>): (d: DataType)
    ensures d == Url <==> requested == Some("url")
  {
    if requested == Some("url") then Url else Base64
  }

  /** The resolved entries as the array the promise hands over: one slot
      per task, null where a task stored null. */
  function ResolvedArray(buffers: map<nat, Option<AudioBuffer>>, n: nat): (list: seq<Option<AudioBuffer>>)
    ensures |list| == n
    ensures forall i :: 0 <= i < n ==> list[i] == if i in buffers then buffers[i] else None
  {
    seq(n, i requires 0 <= i < n => if i in buffers then buffers[i] else None)
  }

  /** One-shot promise: the first resolve or reject wins. */
  datatype Promise = Pending | Resolved(buffers: map<nat, Option<AudioBuffer>>) | Rejected

  function Resolve(p: Promise, buffers: map<nat, Option<AudioBuffer>>): (r: Promise)
    ensures p.Pending? ==> r == Resolved(buffers)
    ensures !p.Pending? ==> r == p
  {
    if p.Pending? then Resolved(buffers) else p
  }

  function Reject(p: Promise): (r: Promise)
    ensures p.Pending? ==> r == Rejected
    ensures !p.Pending? ==> r == p
  {
    if p.Pending? then Rejected else p
  }

  datatype Loader = Loader(
    taskCount: nat,
    remaining: int,                       // _numberOfTasks
    buffers: map<nat, Option<AudioBuffer>>, // _bufferList; None is a null entry
    aborted: bool,
    hasSettled: bool,
    promise: Promise,
    openRequests: set<nat>)               // XHRs not yet DONE

  /** What a load callback delivers. */
  datatype Event =
    | Decoded(id: nat, buffer: AudioBuffer) // decodeAudioData success
    | DecodeFailed(id: nat)                 // decodeAudioData failure (base64 or XHR)
    | HttpLoaded(id: nat, status: int)      // xhr.onload
    | NetworkError(id: nat)                 // xhr.onerror
    | Abort

  /** The state right after load(): every task launched, none reported. */
  function Load(taskCount: nat, dataType: DataType): (s: Loader)
    ensures s.remaining == taskCount && s.buffers == map[] && s.promise.Pending?
    ensures !s.aborted && !s.hasSettled
    ensures dataType == Url ==> forall i :: 0 <= i < taskCount <==> i in s.openRequests
    ensures dataType == Base64 ==> s.openRequests == {}
  {
    Loader(taskCount, taskCount, map[], false, false, Pending,
           if dataType == Url then TaskIds(taskCount) else {})
  }

  function TaskIds(n: nat): (ids: set<nat>)
    ensures forall i: nat :: i in ids <==> i < n
  {
    if n == 0 then {} else TaskIds(n - 1) + {n - 1}
  }

  /** _updateProgress: ignored once settled or aborted; otherwise stores the
      entry, decrements the count and resolves when the count reaches 0. */
  function UpdateProgress(s: Loader, id: nat, buffer: Option<AudioBuffer>): (r: Loader)
    ensures s.hasSettled || s.aborted ==> r == s
    ensures !s.hasSettled && !s.aborted ==>
              && r.remaining == s.remaining - 1
              && r.buffers == s.buffers[id := buffer]
              && r.aborted == s.aborted && r.openRequests == s.openRequests
              && r.hasSettled == (r.remaining == 0)
    ensures (s.promise.Pending? && r.promise.Resolved?) <==>
              (s.promise.Pending? && !s.hasSettled && !s.aborted && s.remaining == 1)
    ensures r.promise.Resolved? && s.promise.Pending? ==> r.promise.buffers == r.buffers
    ensures !s.promise.Pending? ==> r.promise == s.promise
  {
    if s.hasSettled || s.aborted then s
    else
      var next := s.(buffers := s.buffers[id := buffer], remaining := s.remaining - 1);
      if next.remaining == 0 then next.(hasSettled := true, promise := Resolve(s.promise, next.buffers))
      else next
  }

  /** The effective abort (the second definition, which replaces the first):
      idempotent; aborts open requests, rejects and zeroes the counter. It
      does not set hasSettled. */
  function AbortLoad(s: Loader): (r: Loader)
    ensures s.aborted ==> r == s
    ensures !s.aborted ==> && r.aborted && r.remaining == 0 && r.openRequests == {}
                           && r.buffers == s.buffers && r.hasSettled == s.hasSettled
                           && r.promise == Reject(s.promise)
  {
    if s.aborted then s
    else s.(aborted := true, openRequests := {}, promise := Reject(s.promise), remaining := 0)
  }

  /** Requests whose xhr.abort() is called by AbortLoad. */
  function AbortedRequests(s: Loader): (ids: set<nat>)
    ensures ids <= s.openRequests
    ensures s.aborted ==> ids == {}
  {
    if s.aborted then {} else s.openRequests
  }

  /** Transition for one callback, as the source orders it: a failure is
      recorded through _updateProgress BEFORE the rejection. */
  function Apply(s: Loader, e: Event): (r: Loader)
    ensures !s.promise.Pending? ==> r.promise == s.promise
    // a success report on a live load: stored, counted, resolved by the last report
    ensures e.Decoded? && !s.aborted && !s.hasSettled ==>
              && r.buffers == s.buffers[e.id := Some(e.buffer)]
              && r.remaining == s.remaining - 1
              && r.hasSettled == (s.remaining == 1)
              && (s.promise.Pending? ==> r.promise == if s.remaining == 1 then Resolved(r.buffers) else Pending)
    // a failure report on a live load: null stored, counted, and rejected
    // unless that very report resolved the promise first
    ensures (e.DecodeFailed? || e.NetworkError?) && !s.aborted && !s.hasSettled ==>
              && r.buffers == s.buffers[e.id := None]
              && r.remaining == s.remaining - 1
              && r.hasSettled == (s.remaining == 1)
              && (s.promise.Pending? ==> r.promise == if s.remaining == 1 then Resolved(r.buffers) else Rejected)
    // a response only closes its request; a non-200 status rejects uncounted
    ensures e.HttpLoaded? && !s.aborted ==>
              && r.buffers == s.buffers && r.remaining == s.remaining
              && r.openRequests == s.openRequests - {e.id}
              && (s.promise.Pending? ==> r.promise == if e.status == 200 then Pending else Rejected)
  {
    match e
    case Decoded(id, b) => UpdateProgress(s, id, Some(b))
    case DecodeFailed(id) => FailTask(UpdateProgress(s, id, None))
    case HttpLoaded(id, status) =>
      if s.aborted then s
      else
        var done := s.(openRequests := s.openRequests - {id});
        if status == 200 then done else FailTask(done)
    case NetworkError(id) =>
      if s.aborted then s
      else FailTask(UpdateProgress(s.(openRequests := s.openRequests - {id}), id, None))
    case Abort => AbortLoad(s)
  }

  /** _rejectHandler: settles a pending promise; the flags are untouched. */
  function FailTask(s: Loader): (r: Loader)
    ensures r.promise == Reject(s.promise)
    ensures r.remaining == s.remaining && r.buffers == s.buffers && r.hasSettled == s.hasSettled
  {
    s.(promise := Reject(s.promise))
  }

  /** The callbacks in arrival order. */
  function Run(s: Loader, events: seq<Event>): Loader
  {
    if |events| == 0 then s else Apply(Run(s, events[..|events| - 1]), events[|events| - 1])
  }

  /** Once settled, the promise never changes again, whatever arrives. */
  lemma {:induction false} SettledIsFinal(s: Loader, events: seq<Event>)
    requires !s.promise.Pending?
    ensures Run(s, events).promise == s.promise
  {
    if |events| > 0 {
      SettledIsFinal(s, events[..|events| - 1]);
    }
  }

  /** An aborted loader ignores every later callback. */
  predicate AbortedQuiet(s: Loader) {
    s.aborted && s.openRequests == {} && !s.promise.Pending?
  }

  lemma AbortIsIdempotent(s: Loader)
    ensures AbortLoad(AbortLoad(s)) == AbortLoad(s)
    ensures !s.aborted && !s.promise.Resolved? ==> AbortLoad(s).promise == Rejected
    ensures !s.aborted ==> AbortedQuiet(AbortLoad(s))
  {
  }

  lemma {:induction false} AbortedIgnoresEverything(s: Loader, events: seq<Event>)
    requires AbortedQuiet(s)
    ensures Run(s, events) == s
  {
    if |events| > 0 {
      AbortedIgnoresEverything(s, events[..|events| - 1]);
    }
  }

  /** A non-200 response rejects without reporting, so the counter never
      reaches 0 for that task. */
  lemma HttpErrorRejectsWithoutReport(s: Loader, id: nat, status: int)
    requires !s.aborted && s.promise.Pending? && status != 200
    ensures var r := Apply(s, HttpLoaded(id, status));
            r.promise == Rejected && r.remaining == s.remaining && r.buffers == s.buffers
  {
  }

  // ---- successful loading ----------------------------------------------

  function Ids(events: seq<Event>): set<nat>
    requires forall i :: 0 <= i < |events| ==> events[i].Decoded?
  {
    set i | 0 <= i < |events| :: events[i].id
  }

  function Stored(events: seq<Event>): (m: map<nat, Option<AudioBuffer>>)
    requires forall i :: 0 <= i < |events| ==> events[i].Decoded?
    ensures m.Keys == Ids(events)
    ensures forall id :: id in m ==> m[id].Some?
  {
    if |events| == 0 then map[]
    else
      var last := events[|events| - 1];
      var m := Stored(events[..|events| - 1]);
      assert Ids(events) == Ids(events[..|events| - 1]) + {last.id} by {
        assert forall i :: 0 <= i < |events| - 1 ==> events[..|events| - 1][i] == events[i];
      }
      m[last.id := Some(last.buffer)]
  }

  predicate SuccessTrace(n: nat, events: seq<Event>) {
    && |events| == n
    && (forall i :: 0 <= i < n ==> events[i].Decoded? && events[i].id < n)
    && (forall i, j :: 0 <= i < j < n ==> events[i].id != events[j].id)
    && (forall id :: 0 <= id < n ==> id in Ids(events))
  }

  lemma {:induction false} SuccessPrefix(n: nat, d: DataType, events: seq<Event>, k: nat)
    requires SuccessTrace(n, events) && k <= n
    ensures var s := Run(Load(n, d), events[..k]);
            && s.remaining == n - k && !s.aborted
            && s.buffers == Stored(events[..k])
            && (k < n ==> s.promise.Pending? && !s.hasSettled)
            && (0 < k == n ==> s.promise == Resolved(s.buffers))
  {
    if k > 0 {
      SuccessPrefix(n, d, events, k - 1);
      assert events[..k][..k - 1] == events[..k - 1];
    }
  }

  /** When each of the n tasks succeeds exactly once, in any order, the
      promise resolves with a buffer for every task and none missing. */
  lemma AllTasksSucceed(n: nat, d: DataType, events: seq<Event>)
    requires 0 < n && SuccessTrace(n, events)
    ensures var s := Run(Load(n, d), events);
            && s.promise.Resolved? && s.remaining == 0
            && (forall id: nat :: id in s.promise.buffers <==> id < n)
            && (forall id :: id in s.promise.buffers ==> s.promise.buffers[id].Some?)
  {
    SuccessPrefix(n, d, events, n);
    assert events[..n] == events;
    forall id | id in Ids(events)
      ensures id < n
    {
      var i :| 0 <= i < |events| && events[i].id == id;
    }
    assert Run(Load(n, d), events).promise.buffers.Keys == Ids(events);
  }

  // ---- a failing last task ----------------------------------------------

  /** Every resolved list holds a buffer in each slot, and while pending no
      null entry has been recorded. */
  predicate NoNullEntries(s: Loader) {
    && (s.promise.Resolved? ==> forall id :: id in s.promise.buffers ==> s.promise.buffers[id].Some?)
    && (s.promise.Pending? ==> forall id :: id in s.buffers ==> s.buffers[id].Some?)
  }

  /** As written, a failure in the only outstanding task is first counted as
      a report, which resolves the promise with a null entry; the rejection
      that follows is ignored. */
  lemma LastFailureResolvesWithNull()
    ensures var s := Run(Load(1, Base64), [DecodeFailed(0)]);
            s.promise == Resolved(map[0 := None]) && !NoNullEntries(s)
  {
    assert [DecodeFailed(0)][..0] == [];
    var reported := UpdateProgress(Load(1, Base64), 0, None);
    assert reported.promise == Resolved(map[0 := None]);
    var s := Run(Load(1, Base64), [DecodeFailed(0)]);
    assert s == FailTask(reported);
    assert 0 in s.promise.buffers && s.promise.buffers[0] == None;
  }

  /** The evident intent: a failed task rejects before it is counted. */
  function ApplyCorrected(s: Loader, e: Event): (r: Loader)
    ensures NoNullEntries(s) ==> NoNullEntries(r)
    ensures (e.DecodeFailed? || (e.NetworkError? && !s.aborted)) ==> !r.promise.Pending?
    ensures !s.promise.Pending? ==> r.promise == s.promise
  {
    match e
    case DecodeFailed(id) => UpdateProgress(FailTask(s), id, None)
    case NetworkError(id) =>
      if s.aborted then s
      else UpdateProgress(FailTask(s.(openRequests := s.openRequests - {id})), id, None)
    case _ => Apply(s, e)
  }

  function RunCorrected(s: Loader, events: seq<Event>): Loader
  {
    if |events| == 0 then s else ApplyCorrected(RunCorrected(s, events[..|events| - 1]), events[|events| - 1])
  }

  /** With the corrected order, no sequence of callbacks resolves the
      promise with a null entry. */
  lemma {:induction false} CorrectedNeverResolvesWithNull(n: nat, d: DataType, events: seq<Event>)
    ensures NoNullEntries(RunCorrected(Load(n, d), events))
  {
    if |events| > 0 {
      CorrectedNeverResolvesWithNull(n, d, events[..|events| - 1]);
    }
  }

  /** Both orders agree on successful reports. */
  lemma CorrectedAgreesOnSuccess(s: Loader, e: Event)
    requires e.Decoded? || e.HttpLoaded? || e.Abort?
    ensures ApplyCorrected(s, e) == Apply(s, e)
  {
  }
}
