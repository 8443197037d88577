/**
 Everything the charm observes or changes through the host runtime, as one value:
 the leader flag, the application's secret store, the grants issued on it, the
 relations of the current and legacy endpoints with their databags, and the
 unit statuses set so far. Each host call the charm makes is a pure function here.
 */
module Host {
  import opened Wrappers
  import opened Payload
  import SecretIds

  /** Relation ids are integers assigned by the host; `CharmProperties.Separated` states that they are unique across endpoints. */
  type RelId = nat

  type SecretId = string

  /** The fields stored in one secret. */
  type SecretContent = map<string, string>

  datatype Status = Maintenance(message: string) | Active | Blocked(message: string)

  /** Read access to a secret given to the remote side of a relation. */
  datatype Grant = Grant(secretId: SecretId, relation: RelId)

  datatype World = World(
    leader: bool,
    secrets: map<nat, SecretContent>,   // keyed by serial; the id is SecretIds.Uri(serial)
    nextSerial: nat,
    grants: seq<Grant>,
    currentRelations: seq<RelId>,
    legacyRelations: seq<RelId>,
    databags: map<RelId, SmtpRelationData>,
    statuses: seq<Status>)

  /** The store only holds serials it has already allocated, so the next one is fresh. */
  ghost predicate Valid(w: World) {
    forall n :: n in w.secrets ==> n < w.nextSerial
  }

  /** The status the unit shows, which is the last one set. */
  function CurrentStatus(w: World): Option<Status> {
    if |w.statuses| == 0 then None else Some(w.statuses[|w.statuses| - 1])
  }

  function SetStatus(w: World, st: Status): (r: World)
    ensures CurrentStatus(r) == Some(st)
    ensures r.(statuses := w.statuses) == w
  {
    w.(statuses := w.statuses + [st])
  }

  /** Looking a secret up by identifier; `None` when no stored secret has that identifier. */
  function LookupSecret(w: World, id: SecretId): Option<SecretContent> {
    match SecretIds.SerialOf(id)
    case Some(n) => if n in w.secrets then Some(w.secrets[n]) else None
    case None => None
  }

  /** Lookups see only the store: two worlds with the same store resolve every identifier alike. */
  lemma LookupSeesOnlyStore(a: World, b: World)
    requires a.secrets == b.secrets
    ensures forall id :: LookupSecret(a, id) == LookupSecret(b, id)
  {
  }

  /** Adding a secret: the store allocates a fresh serial and returns its identifier. */
  function AddSecret(w: World, content: SecretContent): (r: (World, SecretId))
    ensures r.0.(secrets := w.secrets, nextSerial := w.nextSerial) == w
    ensures r.1 == SecretIds.Uri(w.nextSerial)
    ensures LookupSecret(r.0, r.1) == Some(content)
    ensures Valid(w) ==> Valid(r.0)
    ensures Valid(w) ==> r.0.secrets.Keys == w.secrets.Keys + {w.nextSerial} && w.nextSerial !in w.secrets
    ensures Valid(w) ==> forall id :: LookupSecret(w, id).Some? ==> LookupSecret(r.0, id) == LookupSecret(w, id)
  {
    SecretIds.SerialOfUri(w.nextSerial);
    (w.(secrets := w.secrets[w.nextSerial := content], nextSerial := w.nextSerial + 1),
     SecretIds.Uri(w.nextSerial))
  }

  function GrantSecret(w: World, id: SecretId, rel: RelId): (r: World)
    ensures r.(grants := w.grants) == w
    ensures r.grants == w.grants + [Grant(id, rel)]
  {
    w.(grants := w.grants + [Grant(id, rel)])
  }

  /** Writing a relation's databag replaces what was there and touches no other relation. */
  function UpdateRelationData(w: World, rel: RelId, p: SmtpRelationData): (r: World)
    ensures r.(databags := w.databags) == w
    ensures rel in r.databags && r.databags[rel] == p
    ensures r.databags - {rel} == w.databags - {rel}
  {
    w.(databags := w.databags[rel := p])
  }

  function SetOf(rels: seq<RelId>): set<RelId> {
    set r | r in rels
  }
}
