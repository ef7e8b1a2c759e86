/** What the route handlers under routes/ share: the prompt with its Cancel
    entry, and the `for` loops that make and download one job per item.

    A handler is split at its one prompt. Everything before it is a
    `Stage`: either the handler ends there, or it shows a menu and goes on
    with the value the user picks. The user's answer is the index of the
    picked entry. */
module Routes {
  import opened Wrappers
  import opened Js
  import opened Choices
  import opened Download

  /** `{ name: ' Cancel', value: 'cancel' }`, pushed after the built choices. */
  const CancelChoice: Choice := Entry(Str("cancel"))

  /** A handler up to its prompt. */
  datatype Stage = Stop(plan: Plan) | Prompt(menu: seq<Choice>, next: Json -> Plan)

  /** The prompt returns the value of one of the menu's entries; a header is
      a separator and cannot be picked. */
  predicate ValidPick(menu: seq<Choice>, pick: nat) {
    pick < |menu| && menu[pick].Entry?
  }

  predicate CanAnswer(s: Stage, pick: nat) {
    s.Prompt? ==> ValidPick(s.menu, pick)
  }

  /** The handler after the prompt: `selectedDownload === 'cancel'` returns,
      anything else goes on. */
  function Answer(s: Stage, pick: nat): Plan
    requires CanAnswer(s, pick)
  {
    match s
    case Stop(p) => p
    case Prompt(menu, next) =>
      var sel := menu[pick].value;
      if sel == Str("cancel") then Cancel else next(sel)
  }

  /** A menu that ends with Cancel offers it as a valid pick, and picking it
      ends the handler with nothing downloaded and the filesystem as it was. */
  lemma PickCancel(s: Stage, st: FsState, net: Net)
    requires s.Prompt? && |s.menu| > 0 && s.menu[|s.menu| - 1] == CancelChoice
    ensures CanAnswer(s, |s.menu| - 1)
    ensures Answer(s, |s.menu| - 1) == Cancel
    ensures Perform(st, Answer(s, |s.menu| - 1), net) == (st, Cancelled)
  {
  }

  /** Any other pick goes on with its value. */
  lemma AnswerPrompt(s: Stage, pick: nat)
    requires s.Prompt? && ValidPick(s.menu, pick) && s.menu[pick].value != Str("cancel")
    ensures Answer(s, pick) == s.next(s.menu[pick].value)
  {
  }

  /** Answering with the entry known to sit at `pick`. */
  lemma AnswerEntry(s: Stage, pick: nat, sel: Json)
    requires s.Prompt? && pick < |s.menu| && s.menu[pick] == Entry(sel) && sel != Str("cancel")
    ensures CanAnswer(s, pick) && Answer(s, pick) == s.next(sel)
  {
  }

  /** The extension a name ends with when it is `ext || 'jpg'` for a string
      `ext`. */
  function ExtName(ext: string): (r: string)
    ensures r != ""
    ensures ext != "" ==> r == ext
  {
    if ext == "" then "jpg" else ext
  }

  // ---------------------------------------------------------------------
  // The batch loops

  /** Making one job per item, in order, where making a job may throw: the
      jobs made before the first throw, and whether a throw came. */
  function Batch(items: seq<Json>, make: (Json, nat) -> Result<Job>): (r: (seq<Job>, bool))
    ensures |r.0| <= |items|
    ensures forall i :: 0 <= i < |r.0| ==> make(items[i], i) == Ok(r.0[i])
    ensures r.1 <==> |r.0| < |items|
    ensures r.1 ==> make(items[|r.0|], |r.0|).Throw?
    decreases |items|
  {
    if items == [] then ([], false)
    else
      var n := |items| - 1;
      var front := Batch(items[..n], make);
      assert forall i :: 0 <= i < n ==> items[..n][i] == items[i];
      if front.1 then front
      else match make(items[n], n)
        case Throw => (front.0, true)
        case Ok(j) => (front.0 + [j], false)
  }

  /** `for (let i = 0; i < items.length; i++) { ...; await downloadFile(...) }`:
      download the jobs made, then throw if making one threw. */
  function BatchPlan(items: seq<Json>, make: (Json, nat) -> Result<Job>): Plan {
    var (jobs, thrown) := Batch(items, make);
    Run(jobs, thrown)
  }

  /** When every job can be made, the batch is one job per item, in order. */
  lemma BatchAllMade(items: seq<Json>, make: (Json, nat) -> Result<Job>)
    requires forall i :: 0 <= i < |items| ==> make(items[i], i).Ok?
    ensures var (jobs, thrown) := Batch(items, make);
      !thrown && |jobs| == |items| && forall i :: 0 <= i < |items| ==> jobs[i] == make(items[i], i).value
  {
  }

  /** The first item whose job cannot be made ends the batch: the items
      before it are downloaded and the handler then throws. */
  lemma BatchFirstThrow(items: seq<Json>, make: (Json, nat) -> Result<Job>, k: nat)
    requires k < |items| && make(items[k], k).Throw?
    requires forall i :: 0 <= i < k ==> make(items[i], i).Ok?
    ensures var (jobs, thrown) := Batch(items, make);
      thrown && |jobs| == k && forall i :: 0 <= i < k ==> jobs[i] == make(items[i], i).value
  {
  }

  /** A batch over a prefix that does not throw is a prefix of the batch. */
  lemma BatchPrefix(items: seq<Json>, make: (Json, nat) -> Result<Job>, m: nat)
    requires m <= |items| && !Batch(items[..m], make).1
    ensures |Batch(items, make).0| >= m
    ensures Batch(items, make).0[..m] == Batch(items[..m], make).0
  {
    var p := Batch(items[..m], make).0;
    assert forall i :: 0 <= i < m ==> items[..m][i] == items[i];
    assert forall i :: 0 <= i < m ==> make(items[i], i) == Ok(p[i]);
  }

  /** A batch whose prefix of `m` items leaves the loop at item `m`. */
  lemma BatchStops(items: seq<Json>, make: (Json, nat) -> Result<Job>, m: nat)
    requires m < |items| && !Batch(items[..m], make).1 && make(items[m], m).Throw?
    ensures Batch(items, make) == (Batch(items[..m], make).0, true)
  {
    BatchPrefix(items, make, m);
    var r := Batch(items, make);
    assert |r.0| == m;
    assert r.0 == r.0[..m];
  }

  /** A download that throws ends the handler in `handleError`: the state
      is the one that download left, so no later job is attempted. */
  lemma DownloadThrowEndsRun(st: FsState, jobs: seq<Job>, thenThrows: bool, net: Net, k: nat)
    requires k < |jobs| && RunAll(st, jobs[..k], net).1.Ok?
    requires Fetch(RunAll(st, jobs[..k], net).0, jobs[k], net).1.Throw?
    ensures Perform(st, Run(jobs, thenThrows), net) == (Fetch(RunAll(st, jobs[..k], net).0, jobs[k], net).0, Crashed)
  {
    StopsAtFirstThrow(st, jobs, net, k);
  }

  /** Jobs already run without a throw, then a batch that makes every job:
      the handler's outcome is the batch's, after the earlier results. */
  lemma RunThenBatch(st: FsState, first: seq<Job>, done: seq<Option<string>>, mid: FsState,
                     items: seq<Json>, make: (Json, nat) -> Result<Job>, net: Net)
    requires RunAll(st, first, net) == (mid, Ok(done)) && !Batch(items, make).1
    ensures var p := Perform(mid, BatchPlan(items, make), net);
      Perform(st, Run(first + Batch(items, make).0, false), net)
        == (p.0, if p.1.Completed? then Completed(done + p.1.results) else p.1)
  {
    RunAllAppend(st, first, Batch(items, make).0, net);
  }

  /** A single `downloadFile` call ending the handler. */
  method DownloadOne(disk: Disk, job: Job, net: Net) returns (o: Outcome)
    modifies disk
    ensures disk.State() == Perform(old(disk.State()), Run([job], false), net).0
    ensures o == Perform(old(disk.State()), Run([job], false), net).1
  {
    RunOne(disk.State(), job, net);
    var r := disk.DownloadFile(job, net);
    o := if r.Throw? then Crashed else Completed([r.value]);
  }

  /** The batch loop as the handlers write it: make the i-th job, download
      it, and go on; a throw from either ends the handler. */
  method DownloadEach(disk: Disk, items: seq<Json>, make: (Json, nat) -> Result<Job>, net: Net)
    returns (o: Outcome)
    modifies disk
    ensures disk.State() == Perform(old(disk.State()), BatchPlan(items, make), net).0
    ensures o == Perform(old(disk.State()), BatchPlan(items, make), net).1
  {
    ghost var st0 := disk.State();
    var jobs: seq<Job> := [];
    var results: seq<Option<string>> := [];
    var i := 0;
    while i < |items|
      invariant 0 <= i <= |items|
      invariant Batch(items[..i], make) == (jobs, false)
      invariant RunAll(st0, jobs, net) == (disk.State(), Ok(results))
    {
      assert items[..i + 1][..i] == items[..i];
      var made := make(items[i], i);
      if made.Throw? {
        BatchStops(items, make, i);
        return Crashed;
      }
      assert Batch(items[..i + 1], make) == (jobs + [made.value], false);
      BatchPrefix(items, make, i + 1);
      var whole := Batch(items, make).0;
      assert whole[..i + 1] == jobs + [made.value];
      assert (jobs + [made.value])[..i] == jobs;
      var saved := disk.DownloadFile(made.value, net);
      if saved.Throw? {
        assert whole[..i] == jobs;
        StopsAtFirstThrow(st0, whole, net, i);
        return Crashed;
      }
      jobs := jobs + [made.value];
      results := results + [saved.value];
      i := i + 1;
    }
    assert items[..i] == items;
    return Completed(results);
  }
}
