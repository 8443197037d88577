# SMTP integrator charm: reaction policy

A Dafny model of the event-reaction policy of the SMTP integrator charm. The charm
relays SMTP connection settings (host, port, user, password, authentication type,
transport security, domain) from its configuration into relation databags. A current
endpoint receives the password by reference, through a secret identifier, and a
legacy endpoint receives the plaintext password.

Everything the charm reads or changes through the host runtime is one immutable
`Host.World` value:
- the leader flag;
- the application's secret store, keyed by serial, with a fresh-serial counter;
- the grants issued on secrets;
- the relation ids of the current and legacy endpoints;
- the databags, as `map<RelId, SmtpRelationData>`;
- the log of unit statuses set.

Each handler is a pure transition of that value. Construction (`Charm.Init`) either
blocks the unit or registers the three handlers. `Charm.Dispatch` delivers one event
to a constructed charm. `Charm.Run` is one hook: build a fresh charm from the
configuration, then deliver the event. `Charm.RunAll` is a run of successive hooks,
each of which rebuilds the charm, so nothing of the charm's state carries over.

Modules:
- `Wrappers`: `Option` and Python truthiness of an optional string.
- `SecretIds`: the host's secret identifiers, which in this model are `secret:` plus a decimal serial. `SerialOf` inverts them. `Host.LookupSecret` uses it to find the secret an identifier names.
- `Payload`: the validated `CharmState`, the `SmtpRelationData` record, and the two payload shapes.
- `Host`: the world and the host calls: add a secret, grant it, write a databag, set a status.
- `Charm`: construction, the handlers, dispatch.
- `CharmProperties`: lemmas over several handlers or event sequences.

Three behaviours of the source are worth stating plainly:
- `_store_password_as_secret` never clears the password (src/charm.py:75-80). So the legacy payload written in the same reaction still carries it (`Charm.StorePasswordAsSecret`, first ensures).
- config-changed calls `app.add_secret` (src/charm.py:71, 79) before the leadership check at src/charm.py:84. The model lets that call succeed on a non-leader, so a non-leader adds a secret there. Only databags and grants are promised unchanged there (`Charm.Run`, `CharmProperties.NonLeaderNeverPublishes`).
- config-changed writes the new identifier into every current relation but grants none of them: src/charm.py:68-89 contains no grant. The only grant is at src/charm.py:53-55, in current relation-created, and it uses the `password_id` the state already holds when that hook starts (`Charm.OnConfigChanged` keeps `grants`; `CharmProperties.ExampleScenario` ends with no grants).

## Model

| member | source | states |
|---|---|---|
| Charm.Init | src/charm.py:23-43 | an invalid configuration sets Blocked with its message, registers no handler and changes nothing else; a valid one keeps the state, registers exactly the three handlers and leaves the world as it was |
| CharmProperties.InvalidConfigBlocks | src/charm.py:30-34 | an invalid configuration registers no handler, the resulting charm ignores every event, and the hook leaves the world equal to the input plus one Blocked(message) status, which is the status shown |
| CharmProperties.RunRoutesEvents | src/charm.py:37-43 | with a valid configuration, a relation-created hook on either endpoint is exactly that endpoint's handler, config-changed is exactly its handler, and an unobserved event changes nothing |
| Charm.RunAll | src/charm.py:140-141 | a run of successive hooks, each building a fresh charm, never changes leadership or the relation lists |
| Charm.Run | src/charm.py:23-43 | one hook never changes leadership or the relation lists, changes no databag or grant on a non-leader, and keeps the secret-store invariant |
| Charm.Dispatch | src/charm.py:37-43 | unobserved events change nothing; on a non-leader no event changes databags or grants, and any event other than config-changed changes nothing at all; leadership and relation lists are never changed; the secret-store invariant is kept (which handler each observed event runs is stated by CharmProperties.RunRoutesEvents) |
| Charm.OnRelationCreated | src/charm.py:45-56 | non-leader: world unchanged; leader: exactly one grant to that relation is appended iff password_id is truthy, that relation's databag becomes the current payload, no other databag, secret or status changes |
| Charm.OnLegacyRelationCreated | src/charm.py:58-66 | non-leader: world unchanged; leader: only that relation's databag changes, to the legacy payload, and no grant is issued |
| Charm.StorePasswordAsSecret | src/charm.py:75-80 | a truthy password becomes exactly one new secret {"password": password} whose fresh id is recorded as password_id and resolves back to that content; otherwise world and state are unchanged; the password is not cleared; existing secrets are untouched |
| Host.AddSecret | src/charm.py:79-80 | the new identifier resolves to the stored content, is fresh, and earlier secrets still resolve as before; only the store changes |
| SecretIds.SerialOfUri | src/charm.py:53-54 | every identifier the store issues resolves back to its own serial, so a stored password_id finds the secret it names |
| Charm.UpdateSamlRelation | src/charm.py:91-97 | the relation's databag becomes the current payload; every other databag and every other world field is unchanged |
| Charm.UpdateSamlLegacyRelation | src/charm.py:99-105 | the relation's databag becomes the legacy payload; every other databag and every other world field is unchanged |
| Host.SetStatus | src/charm.py:33 | the status set becomes the one shown, and nothing but the status log changes |
| Host.GrantSecret | src/charm.py:54-55 | exactly one grant of that secret to that relation is appended, and nothing else changes |
| Host.UpdateRelationData | src/charm.py:91-105 | writing a databag sets exactly that relation's payload and leaves every other databag and all other world fields unchanged |
| Charm.WriteAll | src/charm.py:86-89 | after the loop every relation of the list holds the payload, relations outside it keep their databags, nothing else changes |
| Charm.UpdateRelations | src/charm.py:82-89 | non-leader: world unchanged; leader: every legacy relation holds the legacy payload, every current relation not also legacy holds the current payload, databags of unlisted relations are unchanged |
| Charm.OnConfigChanged | src/charm.py:68-73 | statuses gain Maintenance("Configuring charm") then Active; grants and relation lists unchanged; databags unchanged on a non-leader; on a leader payloads are built from the state after secret storage; the secret count grows by one exactly when a password is supplied, the new identifier resolves to {"password": password}, and every earlier secret still resolves as before |
| CharmProperties.ConfigChangedPublishesNewSecret | src/charm.py:68-89 | on a leader with a password, one secret is created and every current relation not also listed as legacy has a payload carrying its id, which resolves to the password, with no plaintext; every legacy relation's payload carries the password and no id; every earlier secret still resolves as before |
| CharmProperties.ConfigChangedWithoutPassword | src/charm.py:75-80 | without a truthy password no secret is created and the state, including any existing password_id, is unchanged |
| CharmProperties.ConfigChangedEndsActive | src/charm.py:68-73 | with a valid configuration, config-changed logs Maintenance then Active and ends Active whether or not the unit is leader |
| CharmProperties.NonLeaderNeverPublishes | src/charm.py:51-85 | on a unit that stays non-leader for the whole run, no run of successive hooks, with any configurations and events, changes any databag or grant |
| CharmProperties.DispatchKeepsShapes | src/charm.py:45-105 | if current databags carry no password, legacy databags carry no password_id and grants go only to current relations, one event keeps all three, given relation ids unique across endpoints |
| CharmProperties.RunKeepsShapes | src/charm.py:23-105 | the same invariant survives a whole hook, construction included, valid configuration or not |
| CharmProperties.RunAllKeepsShapes | src/charm.py:45-105 | the same invariant survives any run of successive hooks |
| CharmProperties.ExampleScenario | src/charm.py:68-137 | for the worked configuration (smtp.example.com:587, user u, password p, plain, starttls) on a leader: one secret holding p, current payload with its id and no password, legacy payload with p and no id, no grants |
| Payload.SmtpData | src/charm.py:123-137 | the current payload copies host, port, user, auth type, transport security and domain, carries password_id and never a password |
| Payload.LegacySmtpData | src/charm.py:107-121 | the legacy payload copies the same six fields, carries the password and never a password_id |
| Payload.RecombineRoundTrip | src/charm.py:107-137 | the state can be rebuilt exactly from the current and legacy payloads published for it |
| Payload.ShapesDifferOnlyInPassword | src/charm.py:107-137 | the legacy payload is the current one with the password fields swapped; the two coincide iff neither password nor password_id is set |

## Left out

- Configuration validation is not part of this model: port range, the allowed authentication and transport values, and the error message. Its rules live in `charm_state.py`. The model takes either a validated `CharmState` or an invalid-configuration message as input. Authentication type and transport security are therefore plain strings.
- The host framework's event machinery (`framework.observe`, event objects, `ops.main`) is not modelled. It is replaced by an enumerated `Event` and a set of observed event kinds. Deferred and re-emitted events are not modelled.
- Failure propagation is not modelled: `get_secret` on an unknown id, a rejected `add_secret` and a failing databag write all raise in the source. A grant records the id it was given without resolving it, and host retries are not modelled.
- The relation-data library (`charms.smtp_integrator.v0.smtp`) is not part of this model: wire encoding, databag serialisation and legacy-compatibility rules. A payload is a record, and `update_relation_data(rel, p)` is "the databag of rel becomes p". The legacy write goes through the current-endpoint provider object (src/charm.py:105). The model keeps the relation argument as the target and does not model which provider object performs the write.
- Secret labels, ownership, revisions and the host's real identifier format are not modelled. The store is a map from serial to content, and in this model the identifier is `secret:` plus the serial.
- Charm.RunAll: the leader flag and the relation lists stay fixed across the run of hooks. Leader election between hooks is not modelled, and neither are relations the host adds or removes between hooks.
- CharmProperties.ConfigChangedEndsActive: the host may refuse `app.add_secret` on a non-leader unit. The hook would then raise after Maintenance and never reach Active. That path is not modelled, because host failures are not.
- Logging, the unused `VALID_LOG_LEVELS` constant and the python-libjuju remark at src/charm.py:78 are not modelled.
- Charm.StorePasswordAsSecret: the secret count grows by exactly one only for a world satisfying `Host.Valid`, meaning the store never reuses a serial. This is an assumption about the host. The same holds for Charm.OnConfigChanged and CharmProperties.ConfigChangedPublishesNewSecret.
- CharmProperties.DispatchKeepsShapes: it assumes the host keeps relation ids unique across the two endpoints and delivers relation-created only for a relation listed on that endpoint. The same holds for CharmProperties.RunKeepsShapes and CharmProperties.RunAllKeepsShapes.
