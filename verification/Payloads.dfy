/** Round trip, prefix-freeness and stability of whole payloads. */
module Payloads {
  import opened Basics
  import opened Dependencies
  import opened Model
  import opened Binary
  import opened Codec
  import opened CodecLaws

  // ---- Round trip ----------------------------------------------------------

  /** What decoding a workload's own payload gives, error by error in the order the decoder meets them. */
  function PayloadBack(w: Workload): Res<Workload> {
    if !GoodContract(w.contract) then Reject
    else
      var (deps, k) :- DepsBack(w.deps, []);
      if w.ident.id == 0 || w.generation == 0 || w.revision == 0 then Reject
      else Ok(Persisted(w).(deps := deps), [])
  }

  lemma PayloadReadsBack(w: Workload)
    requires Sized(w)
    ensures DecodePayload(Payload(w)) == PayloadBack(w)
  {
    hide GetFront, GetRear, PutFront, PutRear, GoodContract, SizedFront, SizedRear;
    FrontLaws();
    RearLaws();
  }

  /** A payload decodes to its own workload exactly when that is loadable and its dependencies are paired. */
  lemma RoundTripIff(w: Workload)
    requires Sized(w)
    ensures DecodePayload(Payload(w)) == Ok(Persisted(w), []) <==> Loadable(w) && Paired(w.deps)
    ensures DecodePayload(Payload(w)).Escape? <==> GoodContract(w.contract) && |w.deps.states| > |w.deps.defs|
  {
    hide DecodePayload, Payload, GoodContract;
    PayloadReadsBack(w);
    if Paired(w.deps) {
      assert w.deps.states + seq(0, _ => FRESH_STATE) == w.deps.states;
    }
  }

  // ---- Prefix-freeness -----------------------------------------------------

  lemma FieldsStable(s: Bytes, m: Bytes)
    ensures Stable(GetFields(s), GetFields(s + m), m)
  {
    hide GetFront, GetRear;
    FrontLaws();
    RearLaws();
  }

  /** On every proper prefix of an accepted payload the decoder runs out of bytes. */
  lemma PrefixRunsShort(p: Bytes, q: Bytes)
    requires DecodePayload(p).Ok? && q < p
    ensures DecodePayload(q).Short?
  {
    var m := p[|q|..];
    assert q + m == p;
    FieldsStable(q, m);
    hide GetFields;
  }

  /** No accepted payload is extended by another one. */
  lemma PrefixFree(p: Bytes, q: Bytes)
    requires DecodePayload(p).Ok? && DecodePayload(q).Ok? && q <= p
    ensures q == p
  {
    if q != p {
      PrefixRunsShort(p, q);
    }
    hide DecodePayload;
  }

  // ---- Whatever decodes can be saved and loaded again ----------------------

  lemma StringsFit()
    ensures forall s {:trigger GetStr(s)} :: GetStr(s).Ok? ==> SizedStr(GetStr(s).value)
  {
    hide FromBE;
  }

  lemma LeavesFit()
    ensures forall s {:trigger GetRequirement(s)} ::
              GetRequirement(s).Ok? ==> SizedRequirement(GetRequirement(s).value) && GoodRequirement(GetRequirement(s).value)
    ensures forall s {:trigger GetBinding(s)} ::
              GetBinding(s).Ok? ==> SizedBinding(GetBinding(s).value) && GoodBinding(GetBinding(s).value)
    ensures forall s {:trigger GetDef(s)} :: GetDef(s).Ok? ==> SizedDef(GetDef(s).value)
    ensures forall s {:trigger GetState(s)} :: GetState(s).Ok? ==> SizedState(GetState(s).value)
    ensures forall s {:trigger GetHandle(s)} :: GetHandle(s).Ok? ==> SizedHandle(GetHandle(s).value)
    ensures forall s {:trigger GetEpisodeTail(s)} :: GetEpisodeTail(s).Ok? ==> SizedEpisodeTail(GetEpisodeTail(s).value)
    ensures forall s {:trigger GetRecord(s)} :: GetRecord(s).Ok? ==> SizedRecord(GetRecord(s).value)
    ensures forall s {:trigger GetHeader(s)} :: GetHeader(s).Ok? ==> SizedHeader(GetHeader(s).value)
    ensures forall s {:trigger GetMarks(s)} :: GetMarks(s).Ok? ==> SizedMarks(GetMarks(s).value)
  {
    hide GetEnum, GetU32, GetU64, GetBool, GetStr, SizedStr;
    StringsFit();
  }

  lemma {:induction false} ManyFit<T>(get: Bytes -> Res<T>, p: T -> bool, n: nat, s: Bytes)
    requires forall s {:trigger get(s)} :: get(s).Ok? ==> p(get(s).value)
    ensures GetMany(get, n, s).Ok? ==> AllOf(GetMany(get, n, s).value, p)
    decreases n
  {
    if n > 0 && get(s).Ok? {
      ManyFit(get, p, n - 1, get(s).rest);
    }
  }

  lemma ListsFit()
    ensures forall n: nat, s {:trigger GetMany(GetRequirement, n, s)} :: GetMany(GetRequirement, n, s).Ok? ==>
              AllOf(GetMany(GetRequirement, n, s).value, SizedRequirement) && AllOf(GetMany(GetRequirement, n, s).value, GoodRequirement)
    ensures forall n: nat, s {:trigger GetMany(GetBinding, n, s)} :: GetMany(GetBinding, n, s).Ok? ==>
              AllOf(GetMany(GetBinding, n, s).value, SizedBinding) && AllOf(GetMany(GetBinding, n, s).value, GoodBinding)
    ensures forall n: nat, s {:trigger GetMany(GetDef, n, s)} :: GetMany(GetDef, n, s).Ok? ==>
              AllOf(GetMany(GetDef, n, s).value, SizedDef)
    ensures forall n: nat, s {:trigger GetMany(GetState, n, s)} :: GetMany(GetState, n, s).Ok? ==>
              AllOf(GetMany(GetState, n, s).value, SizedState)
    ensures forall n: nat, s {:trigger GetMany(GetRecord, n, s)} :: GetMany(GetRecord, n, s).Ok? ==>
              AllOf(GetMany(GetRecord, n, s).value, SizedRecord)
  {
    hide AllOf, GetMany, GetRequirement, GetBinding, GetDef, GetState, GetRecord;
    hide SizedRequirement, SizedBinding, SizedDef, SizedState, SizedRecord, GoodRequirement, GoodBinding;
    LeavesFit();
    forall n: nat, s { ManyFit(GetRequirement, SizedRequirement, n, s); }
    forall n: nat, s { ManyFit(GetRequirement, GoodRequirement, n, s); }
    forall n: nat, s { ManyFit(GetBinding, SizedBinding, n, s); }
    forall n: nat, s { ManyFit(GetBinding, GoodBinding, n, s); }
    forall n: nat, s { ManyFit(GetDef, SizedDef, n, s); }
    forall n: nat, s { ManyFit(GetState, SizedState, n, s); }
    forall n: nat, s { ManyFit(GetRecord, SizedRecord, n, s); }
  }

  lemma ContractFits()
    ensures forall s {:trigger GetContract(s)} ::
              GetContract(s).Ok? ==> SizedContract(GetContract(s).value) && GoodContract(GetContract(s).value)
  {
    hide GetU32, GetU64, GetBool, GetEnum, GetMany, GetRequirement, GetBinding, AllOf;
    ListsFit();
  }

  lemma DepsFit()
    ensures forall s {:trigger GetDeps(s)} :: GetDeps(s).Ok? ==> SizedDeps(GetDeps(s).value) && Paired(GetDeps(s).value)
  {
    hide GetU32, GetU64, GetMany, GetDef, GetState;
    ListsFit();
  }

  lemma EpisodesFit()
    ensures forall n: nat, s {:trigger GetMany(GetEpisode, n, s)} :: GetMany(GetEpisode, n, s).Ok? ==>
              AllOf(GetMany(GetEpisode, n, s).value, SizedEpisode)
  {
    hide GetEpisodeHead, GetHandle, GetLineage, GetProgress, GetEpisodeTail, SizedHandle, AllOf, GetMany;
    LeavesFit();
    forall s ensures GetEpisode(s).Ok? ==> SizedEpisode(GetEpisode(s).value) {
    }
    hide GetEpisode, SizedEpisode;
    forall n: nat, s { ManyFit(GetEpisode, SizedEpisode, n, s); }
  }

  lemma FrontFits()
    ensures forall s {:trigger GetFront(s)} :: GetFront(s).Ok? ==>
              var f := GetFront(s).value; SizedFront(f) && GoodContract(f.contract) && Paired(f.deps)
  {
    hide GetHeader, GetPolicy, GetContract, GetDeps, GetPriority, SizedHeader, SizedContract, SizedDeps, GoodContract, Paired;
    LeavesFit();
    ContractFits();
    DepsFit();
  }

  lemma RearFits()
    ensures forall s {:trigger GetRear(s)} :: GetRear(s).Ok? ==> SizedRear(GetRear(s).value)
  {
    hide GetProgress, GetCounters, GetMarks, GetU32, GetMany, AllOf, SizedMarks;
    LeavesFit();
    ListsFit();
    EpisodesFit();
  }

  lemma FieldsFit(s: Bytes)
    requires GetFields(s).Ok?
    ensures var w := GetFields(s).value; Sized(w) && GoodContract(w.contract) && Paired(w.deps) && Persisted(w) == w
  {
    hide GetFront, GetRear, SizedFront, SizedRear, GoodContract;
    FrontFits();
    RearFits();
    var front := GetFront(s);
    var rear := GetRear(front.rest);
    assert FrontOf(WorkloadOf(front.value, rear.value)) == front.value;
    assert RearOf(WorkloadOf(front.value, rear.value)) == rear.value;
  }

  lemma AcceptedFits(payload: Bytes)
    requires DecodePayload(payload).Ok?
    ensures var w := DecodePayload(payload).value; Sized(w) && Loadable(w) && Paired(w.deps) && Persisted(w) == w
  {
    hide GetFields, Sized, GoodContract;
    FieldsFit(payload);
  }

  /** Whatever bytes a workload was decoded from, saving it and loading it again gives the same workload. */
  lemma DecodedSurvivesReload(payload: Bytes)
    requires DecodePayload(payload).Ok?
    ensures var w := DecodePayload(payload).value; Loadable(w) && DecodePayload(Payload(w)) == Ok(w, [])
  {
    hide DecodePayload, Payload, Sized, Loadable, Paired, Persisted;
    AcceptedFits(payload);
    RoundTripIff(DecodePayload(payload).value);
  }
}
