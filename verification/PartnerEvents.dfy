/**
 What the partner server's event log is worth: in every run its last event about an activation tells the
 activation's status, organisation and capability.
 */
module PartnerEvents {
  import opened Wrappers
  import S = PartnerServer
  import AP = ActivationProtocol
  import opened PartnerStatuses

  function LastOn(events: seq<S.Event>, id: string): Option<S.Event> {
    if events == [] then None
    else if events[|events| - 1].activationId == id then Some(events[|events| - 1])
    else LastOn(events[..|events| - 1], id)
  }

  lemma OneMoreEvent(events: seq<S.Event>, e: S.Event, id: string)
    ensures LastOn(events + [e], id) == if e.activationId == id then Some(e) else LastOn(events, id)
  {
    assert (events + [e])[..|events|] == events;
  }

  predicate Describes(e: S.Event, a: S.Activation) {
    a.status == StatusOf(e.operation) && a.orgId == e.orgId && a.capability == e.capability
  }

  /** Every activation is told of by its last event, and no event is about anything else. */
  ghost predicate Told(core: S.Core) {
    && Keyed(core)
    && (forall id :: id in core.activations ==>
          LastOn(core.events, id).Some? && Describes(LastOn(core.events, id).value, core.activations[id]))
    && (forall id :: id !in core.activations ==> LastOn(core.events, id).None?)
  }

  /** One activation was changed, and this event left about it. */
  predicate Records(core: S.Core, core': S.Core, e: S.Event) {
    && core'.events == core.events + [e] && e.activationId in core'.activations
    && core'.activations == core.activations[e.activationId := core'.activations[e.activationId]]
    && core'.activations[e.activationId].activationId == e.activationId
    && Describes(e, core'.activations[e.activationId])
  }

  lemma RecordsTell(core: S.Core, core': S.Core, e: S.Event)
    requires Told(core) && Records(core, core', e)
    ensures Told(core')
  {
    forall id: string
      ensures LastOn(core'.events, id) == if id == e.activationId then Some(e) else LastOn(core.events, id)
    {
      OneMoreEvent(core.events, e, id);
    }
  }

  lemma CreateTells(t: S.Tables, r: S.Request, b: S.Body, hash: string, c: S.Circumstances)
    requires Told(t.core)
    ensures Told(S.ProcessCreate(t, r, b, hash, c).0.core)
  {
    AP.ProcessCreateIs(t, r, b, hash, c);
    var core' := S.ProcessCreate(t, r, b, hash, c).0.core;
    if core' != t.core {
      RecordsTell(t.core, core', core'.events[|core'.events| - 1]);
    }
  }

  lemma ChangeTells(t: S.Tables, r: S.Request, action: S.Action, id: string, c: S.Circumstances)
    requires Told(t.core)
    ensures Told(S.ProcessChange(t, r, action, id, c).0.core)
  {
    var core' := S.ProcessChange(t, r, action, id, c).0.core;
    if core' != t.core {
      RecordsTell(t.core, core', core'.events[|core'.events| - 1]);
    }
  }

  lemma HandleTells(t: S.Tables, r: S.Request, c: S.Circumstances, hash: S.BodyHash)
    requires Told(t.core)
    ensures Told(S.Handle(t, r, c, hash).0.core)
  {
    if !Admitted(t, r, c) || r.route.NoRoute? {
      OthersChangeNothing(t, r, c, hash);
    } else {
      AdmittedIsRouted(t, r, c, hash);
      var t1 := t.(nonces := S.Pruned(t.nonces, c.now));
      match r.route {
        case Create(body) => if body.Some? { CreateTells(t1, r, body.value, hash(body.value), c); }
        case Change(action, id) => ChangeTells(t1, r, action, id, c);
        case _ =>
      }
    }
  }

  lemma {:induction false} RunTells(t: S.Tables, visits: seq<Visit>, hash: S.BodyHash)
    requires Told(t.core)
    ensures Told(After(t, visits, hash).core)
    decreases |visits|
  {
    if visits != [] {
      HandleTells(t, visits[0].request, visits[0].circumstances, hash);
      RunTells(Handled(t, visits[0], hash).0, visits[1..], hash);
    }
  }

  /**
   In every run from the empty store, whatever fails and whatever ids are used again, the last event about
   an activation tells its status, organisation and capability; of an id that is not stored there is none.
   */
  lemma EventsTellStatuses(start: S.Tables, visits: seq<Visit>, hash: S.BodyHash, id: string)
    requires start == S.EMPTY
    ensures var core := After(start, visits, hash).core;
            if id in core.activations
            then LastOn(core.events, id).Some? && Describes(LastOn(core.events, id).value, core.activations[id])
            else LastOn(core.events, id).None?
  {
    RunTells(start, visits, hash);
  }
}
