/**
 Properties of the charm's reaction policy that relate several handlers or a whole
 sequence of events: leadership gating, the blocked charm, secret-before-publish
 ordering, and the invariant that each endpoint only ever sees its own payload shape.
 */
module CharmProperties {
  import opened Wrappers
  import opened Payload
  import opened Host
  import opened Charm
  import SecretIds

  /**
   On the leader, a supplied password becomes exactly one new secret, and every
   relation written in the same reaction sees it: current relations get its
   identifier (which resolves to the password), legacy relations get the password.
   */
  lemma ConfigChangedPublishesNewSecret(w: World, s: CharmState)
    requires Valid(w) && w.leader && Truthy(s.password)
    ensures var (r, s1) := OnConfigChanged(w, s);
      var id := SecretIds.Uri(w.nextSerial);
      && s1.passwordId == Some(id)
      && s1.password == s.password
      && |r.secrets| == |w.secrets| + 1
      && LookupSecret(r, id) == Some(PasswordSecret(s.password.value))
      && (forall id' :: LookupSecret(w, id').Some? ==> LookupSecret(r, id') == LookupSecret(w, id'))
      && (forall x :: x in w.currentRelations && x !in w.legacyRelations ==>
            x in r.databags && r.databags[x].passwordId == Some(id) && r.databags[x].password.None?)
      && (forall x :: x in w.legacyRelations ==>
            x in r.databags && r.databags[x].password == s.password && r.databags[x].passwordId.None?)
  {
  }

  /** Without a password no secret is created and the state keeps whatever reference it had. */
  lemma ConfigChangedWithoutPassword(w: World, s: CharmState)
    requires !Truthy(s.password)
    ensures var (r, s1) := OnConfigChanged(w, s);
      s1 == s && r.secrets == w.secrets && r.nextSerial == w.nextSerial
  {
  }

  /** Config-changed reports maintenance and then active, on every unit, leader or not. */
  lemma ConfigChangedEndsActive(w: World, s: CharmState)
    ensures Run(w, ValidConfig(s), ConfigChanged).statuses == w.statuses + [Maintenance(ConfiguringMessage), Active]
    ensures CurrentStatus(Run(w, ValidConfig(s), ConfigChanged)) == Some(Active)
  {
  }

  /**
   Construction routes each observed event to its handler: a valid configuration
   makes the hook exactly the handler run on that configuration's state, and an
   unobserved event does nothing.
   */
  lemma RunRoutesEvents(w: World, s: CharmState, rel: RelId)
    ensures Run(w, ValidConfig(s), RelationCreated(rel)) == OnRelationCreated(w, s, rel)
    ensures Run(w, ValidConfig(s), LegacyRelationCreated(rel)) == OnLegacyRelationCreated(w, s, rel)
    ensures Run(w, ValidConfig(s), ConfigChanged) == OnConfigChanged(w, s).0
    ensures Run(w, ValidConfig(s), Unobserved) == w
  {
  }

  /**
   An invalid configuration blocks the unit with the validation message; the charm
   registers no handler, so no event delivered to it changes anything else.
   */
  lemma InvalidConfigBlocks(w: World, msg: string, ev: Event)
    ensures var (w1, c) := Init(w, InvalidConfig(msg));
      && c.observed == {}
      && Dispatch(w1, c, ev) == (w1, c)
      && Run(w, InvalidConfig(msg), ev) == w.(statuses := w.statuses + [Blocked(msg)])
      && CurrentStatus(Run(w, InvalidConfig(msg), ev)) == Some(Blocked(msg))
  {
  }

  /** A non-leader unit never writes a databag or grants a secret, over any run of hooks. */
  lemma {:induction false} NonLeaderNeverPublishes(w: World, hooks: seq<(Config, Event)>)
    requires !w.leader
    ensures RunAll(w, hooks).databags == w.databags
    ensures RunAll(w, hooks).grants == w.grants
    decreases |hooks|
  {
    if |hooks| > 0 {
      NonLeaderNeverPublishes(Run(w, hooks[0].0, hooks[0].1), hooks[1..]);
    }
  }

  /** The host keeps relation ids unique across the two endpoints. */
  ghost predicate Separated(w: World) {
    forall x :: x in w.currentRelations ==> x !in w.legacyRelations
  }

  /** The host delivers relation-created for a relation of the endpoint it names. */
  predicate EventOnEndpoint(w: World, ev: Event) {
    match ev
    case RelationCreated(rel) => rel in w.currentRelations
    case LegacyRelationCreated(rel) => rel in w.legacyRelations
    case _ => true
  }

  /**
   Each endpoint sees only its own shape: no current databag holds a plaintext
   password, no legacy databag holds a secret reference, and secrets are granted
   only to current relations.
   */
  ghost predicate ShapesRespected(w: World) {
    && (forall x :: x in w.databags && x in w.currentRelations ==> w.databags[x].password.None?)
    && (forall x :: x in w.databags && x in w.legacyRelations ==> w.databags[x].passwordId.None?)
    && (forall i :: 0 <= i < |w.grants| ==> w.grants[i].relation in w.currentRelations)
  }

  lemma DispatchKeepsShapes(w: World, c: Instance, ev: Event)
    requires Constructed(c) && Separated(w) && EventOnEndpoint(w, ev) && ShapesRespected(w)
    ensures ShapesRespected(Dispatch(w, c, ev).0)
  {
  }

  lemma RunKeepsShapes(w: World, cfg: Config, ev: Event)
    requires Separated(w) && EventOnEndpoint(w, ev) && ShapesRespected(w)
    ensures ShapesRespected(Run(w, cfg, ev))
  {
  }

  /** The shape invariant survives any run of hooks, whatever their configurations. */
  lemma {:induction false} RunAllKeepsShapes(w: World, hooks: seq<(Config, Event)>)
    requires Separated(w) && ShapesRespected(w)
    requires forall i :: 0 <= i < |hooks| ==> EventOnEndpoint(w, hooks[i].1)
    ensures ShapesRespected(RunAll(w, hooks))
    decreases |hooks|
  {
    if |hooks| > 0 {
      var w1 := Run(w, hooks[0].0, hooks[0].1);
      RunKeepsShapes(w, hooks[0].0, hooks[0].1);
      forall i | 0 <= i < |hooks[1..]|
        ensures EventOnEndpoint(w1, hooks[1..][i].1)
      {
        assert EventOnEndpoint(w, hooks[i + 1].1);
      }
      RunAllKeepsShapes(w1, hooks[1..]);
    }
  }

  /**
   The worked example: a leader with one current relation (1) and one legacy
   relation (2) handles config-changed for host smtp.example.com, port 587, user u,
   password p, plain authentication over STARTTLS and no domain.
   */
  lemma ExampleScenario()
    ensures
      var s := CharmState("smtp.example.com", 587, Some("u"), Some("p"), None, "plain", "starttls", None);
      var w := World(true, map[], 0, [], [1], [2], map[], []);
      var r := Run(w, ValidConfig(s), ConfigChanged);
      var id := SecretIds.Uri(0);
      && r.secrets == map[0 := map["password" := "p"]]
      && r.databags[1] == SmtpRelationData("smtp.example.com", 587, Some("u"), None, Some(id), "plain", "starttls", None)
      && r.databags[2] == SmtpRelationData("smtp.example.com", 587, Some("u"), Some("p"), None, "plain", "starttls", None)
      && r.grants == []
  {
  }
}
