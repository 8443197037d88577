/**
 The charm's reaction policy. Construction validates the configuration and, only
 when it is valid, registers three handlers; each handler is a transition of the
 host world. Every write is gated on leadership, and config-changed stores the
 password as a secret before it rewrites any relation.
 */
module Charm {
  import opened Wrappers
  import opened Payload
  import opened Host
  import SecretIds

  const ConfiguringMessage: string := "Configuring charm"

  /** The content of the secret that holds the SMTP password. */
  function PasswordSecret(password: string): SecretContent {
    map["password" := password]
  }

  datatype Event =
    | RelationCreated(relation: RelId)          // created on the current endpoint
    | LegacyRelationCreated(relation: RelId)    // created on the legacy endpoint
    | ConfigChanged
    | Unobserved                                // any event the charm does not observe

  datatype EventKind = RelationCreatedKind | LegacyRelationCreatedKind | ConfigChangedKind | UnobservedKind

  function KindOf(ev: Event): EventKind {
    match ev
    case RelationCreated(_) => RelationCreatedKind
    case LegacyRelationCreated(_) => LegacyRelationCreatedKind
    case ConfigChanged => ConfigChangedKind
    case Unobserved => UnobservedKind
  }

  /** The outcome of validating the configuration. */
  datatype Config = ValidConfig(state: CharmState) | InvalidConfig(message: string)

  /** A constructed charm: its state record, if it has one, and the events it observes. */
  datatype Instance = Instance(state: Option<CharmState>, observed: set<EventKind>)

  /** Handlers are registered only once a state record exists. */
  predicate Constructed(c: Instance) {
    c.observed != {} ==> c.state.Some?
  }

  const HandledKinds: set<EventKind> := {LegacyRelationCreatedKind, RelationCreatedKind, ConfigChangedKind}

  /**
   Construction. An invalid configuration blocks the unit with the validation
   message and registers no handler; a valid one keeps the state and registers the
   three handlers.
   */
  function Init(w: World, cfg: Config): (r: (World, Instance))
    ensures Constructed(r.1)
    ensures r.1.observed == {} <==> cfg.InvalidConfig?
    ensures cfg.ValidConfig? ==> r.1.observed == HandledKinds
    ensures cfg.InvalidConfig? ==> CurrentStatus(r.0) == Some(Blocked(cfg.message))
    ensures r.0.(statuses := w.statuses) == w
    ensures cfg.ValidConfig? ==> r.0 == w && r.1.state == Some(cfg.state)
  {
    match cfg
    case InvalidConfig(msg) => (SetStatus(w, Blocked(msg)), Instance(None, {}))
    case ValidConfig(s) => (w, Instance(Some(s), HandledKinds))
  }

  /** Grants the secret (when the state refers to one) and publishes the current payload. */
  function OnRelationCreated(w: World, s: CharmState, rel: RelId): (r: World)
    ensures !w.leader ==> r == w
    ensures w.leader ==> r.grants == w.grants + (if Truthy(s.passwordId) then [Grant(s.passwordId.value, rel)] else [])
    ensures w.leader ==> rel in r.databags && r.databags[rel] == SmtpData(s)
    ensures r.databags - {rel} == w.databags - {rel}
    ensures r.(grants := w.grants, databags := w.databags) == w
  {
    if !w.leader then w
    else
      var w1 := if Truthy(s.passwordId) then GrantSecret(w, s.passwordId.value, rel) else w;
      UpdateSamlRelation(w1, s, rel)
  }

  /** Publishes the legacy payload; a legacy relation is never granted a secret. */
  function OnLegacyRelationCreated(w: World, s: CharmState, rel: RelId): (r: World)
    ensures !w.leader ==> r == w
    ensures w.leader ==> rel in r.databags && r.databags[rel] == LegacySmtpData(s)
    ensures r.databags - {rel} == w.databags - {rel}
    ensures r.(databags := w.databags) == w
  {
    if !w.leader then w else UpdateSamlLegacyRelation(w, s, rel)
  }

  /**
   Moves a non-empty password into a new secret and records its identifier in the
   state; the password itself stays in the state.
   */
  function StorePasswordAsSecret(w: World, s: CharmState): (r: (World, CharmState))
    ensures r.1.(passwordId := s.passwordId) == s
    ensures !Truthy(s.password) ==> r == (w, s)
    ensures Truthy(s.password) ==> r.1.passwordId == Some(SecretIds.Uri(w.nextSerial))
    ensures Truthy(s.password) ==> LookupSecret(r.0, r.1.passwordId.value) == Some(PasswordSecret(s.password.value))
    ensures r.0.(secrets := w.secrets, nextSerial := w.nextSerial) == w
    ensures Valid(w) ==> Valid(r.0)
    ensures Valid(w) ==> |r.0.secrets| == |w.secrets| + (if Truthy(s.password) then 1 else 0)
    ensures Valid(w) ==> forall id :: LookupSecret(w, id).Some? ==> LookupSecret(r.0, id) == LookupSecret(w, id)
  {
    if Truthy(s.password) then
      var (w1, id) := AddSecret(w, PasswordSecret(s.password.value));
      (w1, s.(passwordId := Some(id)))
    else (w, s)
  }

  /** Publishes the current payload on one relation, touching nothing else. */
  function UpdateSamlRelation(w: World, s: CharmState, rel: RelId): (r: World)
    ensures rel in r.databags && r.databags[rel] == SmtpData(s)
    ensures r.databags - {rel} == w.databags - {rel}
    ensures r.(databags := w.databags) == w
  {
    UpdateRelationData(w, rel, SmtpData(s))
  }

  /** Publishes the legacy payload on one relation, touching nothing else. */
  function UpdateSamlLegacyRelation(w: World, s: CharmState, rel: RelId): (r: World)
    ensures rel in r.databags && r.databags[rel] == LegacySmtpData(s)
    ensures r.databags - {rel} == w.databags - {rel}
    ensures r.(databags := w.databags) == w
  {
    UpdateRelationData(w, rel, LegacySmtpData(s))
  }

  /** One step of `WriteAll`: writing the head and then the tail writes the whole list. */
  lemma WriteStep(before: map<RelId, SmtpRelationData>, mid: map<RelId, SmtpRelationData>,
                  after: map<RelId, SmtpRelationData>, rels: seq<RelId>, p: SmtpRelationData)
    requires |rels| > 0
    requires rels[0] in mid && mid[rels[0]] == p && mid - {rels[0]} == before - {rels[0]}
    requires forall x :: x in rels[1..] ==> x in after && after[x] == p
    requires after - SetOf(rels[1..]) == mid - SetOf(rels[1..])
    ensures forall x :: x in rels ==> x in after && after[x] == p
    ensures after - SetOf(rels) == before - SetOf(rels)
  {
    var rest := SetOf(rels[1..]);
    assert SetOf(rels) == {rels[0]} + rest;
    assert forall x :: x in rels ==> x == rels[0] || x in rels[1..];
    if rels[0] !in rest {
      assert rels[0] in mid - rest;
      assert (after - rest)[rels[0]] == after[rels[0]];
    }
    calc {
      after - SetOf(rels);
      (after - rest) - {rels[0]};
      (mid - rest) - {rels[0]};
      (mid - {rels[0]}) - rest;
      (before - {rels[0]}) - rest;
      before - SetOf(rels);
    }
  }

  /** Writes `p` into the databag of each relation in `rels`, in order. */
  function WriteAll(w: World, rels: seq<RelId>, p: SmtpRelationData): (r: World)
    ensures r.(databags := w.databags) == w
    ensures forall x :: x in rels ==> x in r.databags && r.databags[x] == p
    ensures r.databags - SetOf(rels) == w.databags - SetOf(rels)
    decreases |rels|
  {
    if |rels| == 0 then w
    else
      var w1 := UpdateRelationData(w, rels[0], p);
      var r := WriteAll(w1, rels[1..], p);
      WriteStep(w.databags, w1.databags, r.databags, rels, p);
      r
  }

  /** The relations the charm publishes to. */
  function Published(w: World): set<RelId> {
    SetOf(w.currentRelations) + SetOf(w.legacyRelations)
  }

  /**
   On the leader, rewrites every current relation with the current payload and then
   every legacy relation with the legacy payload; a relation listed on both
   endpoints ends with the legacy payload.
   */
  function UpdateRelations(w: World, s: CharmState): (r: World)
    ensures !w.leader ==> r == w
    ensures r.(databags := w.databags) == w
    ensures w.leader ==> forall x :: x in w.legacyRelations ==> x in r.databags && r.databags[x] == LegacySmtpData(s)
    ensures w.leader ==> forall x :: x in w.currentRelations && x !in w.legacyRelations ==>
              x in r.databags && r.databags[x] == SmtpData(s)
    ensures r.databags - Published(w) == w.databags - Published(w)
  {
    if !w.leader then w
    else
      var w1 := WriteAll(w, w.currentRelations, SmtpData(s));
      var w2 := WriteAll(w1, w.legacyRelations, LegacySmtpData(s));
      forall x | x in w.currentRelations && x !in w.legacyRelations
        ensures x in w2.databags && w2.databags[x] == SmtpData(s)
      {
        assert x !in SetOf(w.legacyRelations);
        assert x in w1.databags - SetOf(w.legacyRelations);
        assert (w2.databags - SetOf(w.legacyRelations))[x] == w2.databags[x];
      }
      assert w2.databags - Published(w) == (w2.databags - SetOf(w.legacyRelations)) - SetOf(w.currentRelations);
      assert w.databags - Published(w) == (w.databags - SetOf(w.currentRelations)) - SetOf(w.legacyRelations);
      w2
  }

  /**
   Config-changed: status goes to maintenance, the password is stored as a secret,
   relations are rewritten from the updated state, and status ends active.
   */
  function OnConfigChanged(w: World, s: CharmState): (r: (World, CharmState))
    ensures r.0.statuses == w.statuses + [Maintenance(ConfiguringMessage), Active]
    ensures CurrentStatus(r.0) == Some(Active)
    ensures r.0.(secrets := w.secrets, nextSerial := w.nextSerial, databags := w.databags, statuses := w.statuses) == w
    ensures r.1 == StorePasswordAsSecret(w, s).1
    ensures !w.leader ==> r.0.databags == w.databags
    ensures w.leader ==> forall x :: x in w.legacyRelations ==> x in r.0.databags && r.0.databags[x] == LegacySmtpData(r.1)
    ensures w.leader ==> forall x :: x in w.currentRelations && x !in w.legacyRelations ==>
              x in r.0.databags && r.0.databags[x] == SmtpData(r.1)
    ensures r.0.databags - Published(w) == w.databags - Published(w)
    ensures Valid(w) ==> Valid(r.0)
    ensures Valid(w) ==> |r.0.secrets| == |w.secrets| + (if Truthy(s.password) then 1 else 0)
    ensures Truthy(s.password) ==> LookupSecret(r.0, r.1.passwordId.value) == Some(PasswordSecret(s.password.value))
    ensures Valid(w) ==> forall id :: LookupSecret(w, id).Some? ==> LookupSecret(r.0, id) == LookupSecret(w, id)
  {
    var w1 := SetStatus(w, Maintenance(ConfiguringMessage));
    var (w2, s2) := StorePasswordAsSecret(w1, s);
    var w3 := UpdateRelations(w2, s2);
    var w4 := SetStatus(w3, Active);
    LookupSeesOnlyStore(w, w1);
    LookupSeesOnlyStore(w2, w4);
    (w4, s2)
  }

  /** Delivers one event to a constructed charm; unobserved events change nothing. */
  function Dispatch(w: World, c: Instance, ev: Event): (r: (World, Instance))
    requires Constructed(c)
    ensures Constructed(r.1)
    ensures r.1.observed == c.observed
    ensures KindOf(ev) !in c.observed ==> r == (w, c)
    ensures !w.leader ==> r.0.databags == w.databags && r.0.grants == w.grants
    ensures !w.leader && !ev.ConfigChanged? ==> r.0 == w
    ensures r.0.leader == w.leader && r.0.currentRelations == w.currentRelations
    ensures r.0.legacyRelations == w.legacyRelations
    ensures Valid(w) ==> Valid(r.0)
  {
    if KindOf(ev) !in c.observed then (w, c)
    else
      match ev
      case RelationCreated(rel) => (OnRelationCreated(w, c.state.value, rel), c)
      case LegacyRelationCreated(rel) => (OnLegacyRelationCreated(w, c.state.value, rel), c)
      case ConfigChanged =>
        var (w1, s1) := OnConfigChanged(w, c.state.value);
        (w1, c.(state := Some(s1)))
      case Unobserved => (w, c)
  }

  /**
   One hook: the host builds a fresh charm from the configuration and delivers one
   event to it. Nothing of the charm's state outlives the hook.
   */
  function Run(w: World, cfg: Config, ev: Event): (r: World)
    ensures r.leader == w.leader && r.currentRelations == w.currentRelations
    ensures r.legacyRelations == w.legacyRelations
    ensures !w.leader ==> r.databags == w.databags && r.grants == w.grants
    ensures Valid(w) ==> Valid(r)
  {
    var (w1, c) := Init(w, cfg);
    Dispatch(w1, c, ev).0
  }

  /** Successive hooks on one unit, each with the configuration it was started with. */
  function RunAll(w: World, hooks: seq<(Config, Event)>): (r: World)
    ensures r.leader == w.leader && r.currentRelations == w.currentRelations
    ensures r.legacyRelations == w.legacyRelations
    decreases |hooks|
  {
    if |hooks| == 0 then w
    else RunAll(Run(w, hooks[0].0, hooks[0].1), hooks[1..])
  }
}
