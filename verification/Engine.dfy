/** The engine as a state machine: every method holds one mutex, so a run is a sequence of calls (src/coordinator.cpp). */
module Engine {
  import opened Basics
  import opened Vocabulary
  import opened Model
  import opened Runs
  import opened Records
  import opened Store

  const FIRST_EPISODE_ID: u64 := 1000

  /** `shelf` holds the store's records, None when the engine was built without a store. */
  datatype EngineState = EngineState(workloads: map<u64, Workload>, counter: u64, shelf: Option<Shelf>)

  function Started(withStore: bool): EngineState {
    EngineState(map[], FIRST_EPISODE_ID, if withStore then Some([]) else None)
  }

  datatype EngineCall =
    | Register(id: u64, name: Bytes, intent: Bytes, policy: Policy)
    | On(id: u64, op: Op)

  datatype EngineResult = EngineResult(outcome: Outcome, episodeId: Option<u64>, workloadGeneration: u64)

  datatype Reaction = Reaction(e: EngineState, r: EngineResult)

  /** The engine has no call that declares a total. */
  predicate Offered(c: EngineCall) {
    c.On? ==> !c.op.OpDeclareTotal?
  }

  function Kept(shelf: Option<Shelf>, w: Workload): Option<Shelf> {
    if shelf.None? then None else Some(Saved(shelf.value, w.ident.id, EncodeRecord(w)))
  }

  /** An episode id is used up by every start on a known workload, refused or not. */
  function CounterAfter(e: EngineState, op: Op): u64 {
    if op.OpStartEpisode? then Wrap(e.counter + 1) else e.counter
  }

  function Perform(e: EngineState, c: EngineCall): (re: Reaction)
    ensures re.r.outcome.ALLOW? ==> c.id in re.e.workloads
    ensures e.shelf.Some? <==> re.e.shelf.Some?
  {
    match c
    case Register(id, name, intent, policy) =>
      if id in e.workloads then Reaction(e, EngineResult(REJECT_DUPLICATE_WORKLOAD, None, 0))
      else
        var w := Created(id, name, intent, policy);
        Reaction(e.(workloads := e.workloads[id := w], shelf := Kept(e.shelf, w)), EngineResult(ALLOW, None, 1))
    case On(id, op) =>
      if id !in e.workloads then Reaction(e, EngineResult(REJECT_WORKLOAD_NOT_FOUND, None, 0))
      else
        var s := Apply(e.workloads[id], op, e.counter);
        var minted := if op.OpStartEpisode? && s.out.ALLOW? then Some(e.counter) else None;
        Reaction(EngineState(e.workloads[id := s.w], CounterAfter(e, op), if s.out.ALLOW? then Kept(e.shelf, s.w) else e.shelf),
                 EngineResult(s.out, minted, s.w.generation))
  }

  function EngineRun(e: EngineState, calls: seq<EngineCall>): EngineState
    decreases |calls|
  {
    if calls == [] then e else Perform(EngineRun(e, calls[..|calls| - 1]), calls[|calls| - 1]).e
  }

  // ---- Each workload's own run ---------------------------------------------

  /** The part of an engine run that one workload sees. */
  datatype Story = Story(birth: Workload, calls: seq<Call>)

  function StoryOf(e: EngineState, calls: seq<EngineCall>, id: u64): Option<Story>
    decreases |calls|
  {
    if calls == [] then None
    else
      var before, c := StoryOf(e, calls[..|calls| - 1], id), calls[|calls| - 1];
      if before.Some? && c.On? && c.id == id
      then Some(Story(before.value.birth, before.value.calls + [Call(c.op, EngineRun(e, calls[..|calls| - 1]).counter)]))
      else if before.None? && c.Register? && c.id == id then Some(Story(Created(id, c.name, c.intent, c.policy), []))
      else before
  }

  predicate WellTold(w: Workload, id: u64, story: Story) {
    && w == Run(story.birth, story.calls)
    && story.birth == Created(id, story.birth.ident.name, story.birth.ident.intent, story.birth.policy)
  }

  /**
   * Interleaved with calls on any other workloads, each workload goes through a run of its own from
   * CREATED: every theorem about runs is a theorem about the engine.
   */
  lemma {:induction false} EngineRunsAreWorkloadRuns(calls: seq<EngineCall>, id: u64, withStore: bool)
    ensures var e, story := EngineRun(Started(withStore), calls), StoryOf(Started(withStore), calls, id);
            && (id in e.workloads <==> story.Some?)
            && (story.Some? ==> WellTold(e.workloads[id], id, story.value))
    decreases |calls|
  {
    if calls != [] {
      hide Apply, Created, Kept;
      var init, c := calls[..|calls| - 1], calls[|calls| - 1];
      EngineRunsAreWorkloadRuns(init, id, withStore);
      var before := StoryOf(Started(withStore), init, id);
      if before.Some? && c.On? && c.id == id {
        var call := Call(c.op, EngineRun(Started(withStore), init).counter);
        assert (before.value.calls + [call])[..|before.value.calls|] == before.value.calls;
      }
      CreatedFields(id);
    }
  }

  lemma CreatedFields(id: u64)
    ensures forall n, i, p {:trigger Created(id, n, i, p)} ::
              Created(id, n, i, p) ==
              Created(id, Created(id, n, i, p).ident.name, Created(id, n, i, p).ident.intent, Created(id, n, i, p).policy)
  {
  }

  predicate AllSound(e: EngineState) {
    forall id | id in e.workloads :: Inv(e.workloads[id])
  }

  /** In every engine run, every workload satisfies the whole invariant. */
  lemma EngineKeepsInv(calls: seq<EngineCall>, withStore: bool)
    ensures AllSound(EngineRun(Started(withStore), calls))
  {
    hide Inv, Created;
    var e := EngineRun(Started(withStore), calls);
    forall id | id in e.workloads ensures Inv(e.workloads[id]) {
      EngineRunsAreWorkloadRuns(calls, id, withStore);
      var story := StoryOf(Started(withStore), calls, id).value;
      CreatedInv(id, story.birth.ident.name, story.birth.ident.intent, story.birth.policy);
      RunKeepsInv(story.birth, story.calls);
    }
  }
}
