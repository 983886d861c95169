# PostgreSQL configuration store — Dafny model

This project models the core of the PostgreSQL configuration store, a
configuration component (`configuration/postgres/postgres.go`). The store
reads configuration items from a table and pushes changes to subscribers
through PostgreSQL's `LISTEN`/`NOTIFY`. The model covers four parts:

- `Metadata` (`metadata.dfy`): `parseMetadata`. It checks the component
  properties in a fixed order: connection string, then table name (present,
  ASCII, at most 64 characters), then the optional idle timeout. It is a pure
  function returning the settings or the first error.
- `Query` (`query.dfy`): `buildQuery`. It is a method with the loop of `buildQuery`
  over the metadata filters. It is proved equal to a specification function
  `QueryText`. Lemmas about `strings.Join` show that every key and every
  clause appears, in order, with exactly one separator between neighbours.
- `Subscriptions` (`subscriptions.dfy`): `Subscribe` and `Unsubscribe`.
  They are methods of the class `ConfigurationStore`, whose
  `subscribeStopChanMap` becomes the field `stopChans`. Stop channels are
  numbered handles, and the field `closed` holds the handles closed so far.
- `Notification` (`notification.dfy`): the decoding part of
  `handleSubscribedChange`. The payload is a JSON datatype, and the field
  loop is a method proved against the specification function `RowOf`. The
  result is the event the handler would be called with, or `None` when the
  handler is not called.

Behaviour of the code that the model keeps as written:

- **Supersession never happens.** `Subscribe` looks up the key
  `"listen " + table` and closes the channel stored there, if any. Entries,
  however, are stored under fresh UUIDs, so the lookup never finds anything
  (`SupersessionNeverFires`). After two subscriptions on one store both stop
  channels therefore stay open (`SubscribeTwice`).
- **Missing `data` still dispatches.** A payload with no `data` object still
  produces an event, with empty key, value, version and metadata. So does a
  `data` field that is not an object, and so does a body of JSON `null`.
  Only a body that does not unmarshal into a map, or a field of the wrong
  type, drops the notification.
- **Filter order.** Filters are appended in Go's map iteration order, which
  is not fixed. The model takes that order as an input sequence.
- **Idle timeout default.** An absent idle timeout leaves `maxIdleTime` at
  zero.

`time.ParseDuration` is passed to `ParseMetadata` as a function parameter.
The fresh identifier from `uuid.New()` is a parameter of `Subscribe`.

## Model

| member | source | states |
|---|---|---|
| `Metadata.ParseMetadata` | configuration/postgres/postgres.go:231-261 | Fails with MissingConnectionString exactly when the connection string is absent or empty. Otherwise: MissingTableName exactly when the table is absent or empty; the non-ASCII error exactly when it has a character of 128 or above; TooLong exactly when it is ASCII and longer than 64. Then InvalidMaxIdleTime exactly when a non-empty idle timeout does not parse. Succeeds exactly when all checks pass, with the connection string and table unchanged and `maxIdleTime` equal to the parsed duration, or 0 when absent |
| `Metadata.EarlierErrorWins` | configuration/postgres/postgres.go:234-250 | Once the connection-string or table check fails, adding any other property does not change the error returned |
| `Metadata.MessageDeterminesError` | configuration/postgres/postgres.go:237-257 | Two errors with the same text are the same error: each failed check has its own message, and the non-ASCII and too-long messages carry the rejected table name |
| `Query.BuildQuery` | configuration/postgres/postgres.go:275-301 | The error result is always nil; the query equals `QueryText`: the base, then with n > 0 filters ` AND ` and the n clauses joined by ` AND ` |
| `Query.PlainScan` | configuration/postgres/postgres.go:277-278 | With no keys and no filters the query is exactly `SELECT * FROM ` + table |
| `Query.QueryShape` | configuration/postgres/postgres.go:277-300 | The query always starts with the base; without filters it equals the base; with filters the rest is ` AND ` and the joined clauses |
| `Query.JoinSegments` | configuration/postgres/postgres.go:282 | In `strings.Join` every part i appears at its offset, in order, and neighbouring parts are separated by exactly one separator, so key order is preserved |
| `Query.JoinAppend` | configuration/postgres/postgres.go:282 | Joining two non-empty lists puts exactly one separator between their joins |
| `Query.FilterSuffixSnoc` | configuration/postgres/postgres.go:287-299 | Each further filter adds one clause: the first brings ` AND ` and its clause, each later one ` AND ` and its clause |
| `Subscriptions.ChannelKeyIsNotUuid` | configuration/postgres/postgres.go:133-134 | The key `listen <table>` is never a UUID string |
| `Subscriptions.SupersessionNeverFires` | configuration/postgres/postgres.go:133-140 | In a registry keyed by UUIDs, the lookup of the channel key finds nothing |
| `Subscriptions.ConfigurationStore.constructor` | configuration/postgres/postgres.go:58-63 | A new store has an empty registry and no channels |
| `Subscriptions.ConfigurationStore.Subscribe` | configuration/postgres/postgres.go:132-143 | Returns the fresh id. The id is added with a newly made open channel, and all other entries are unchanged. The channel under `listen <table>`, if present, is closed; nothing else is. With UUID ids nothing is closed and every registered stop channel stays open |
| `Subscriptions.ConfigurationStore.Unsubscribe` | configuration/postgres/postgres.go:145-151 | Always succeeds. A registered id is removed and its channel closed. An unknown id changes nothing. Every other registered stop channel stays open, and UUID keying is preserved |
| `Subscriptions.SubscribeTwice` | configuration/postgres/postgres.go:132-143 | After two subscriptions with UUID ids on one store, both stop channels are still open |
| `Subscriptions.UnsubscribeTwice` | configuration/postgres/postgres.go:145-151 | Unsubscribing the same id twice closes exactly one channel and leaves the id unregistered |
| `Notification.NameMatchSpellings` | configuration/postgres/postgres.go:200 | Without using the lowering function: a field name matches a lower-case ASCII name exactly when it has the same length and each rune is that letter, its capital, or (for `i` and `k`) U+0130 or U+212A, the runes Go's `strings.ToLower` lowers to them |
| `Notification.KeySpellings` | configuration/postgres/postgres.go:200-202 | A name matches `key` exactly when it is 3 runes: `k`/`K`/U+212A, `e`/`E`, `y`/`Y` |
| `Notification.ValueSpellings` | configuration/postgres/postgres.go:200-204 | A name matches `value` exactly when it is `value` in any mix of cases |
| `Notification.VersionSpellings` | configuration/postgres/postgres.go:200-206 | A name matches `version` exactly when it is `version` in any mix of cases, with U+0130 also accepted for the `i` |
| `Notification.MetadataSpellings` | configuration/postgres/postgres.go:200-207 | A name matches `metadata` exactly when it is `metadata` in any mix of cases |
| `Notification.EventOf` | configuration/postgres/postgres.go:215-224 | The event has one item, under the decoded key, with the decoded value, version and metadata, and carries the subscription id |
| `Notification.Dispatched` | configuration/postgres/postgres.go:185-225 | A dispatched event carries the subscription id and exactly one item. A malformed body, or a JSON body that is neither an object nor null, dispatches nothing |
| `Notification.DecodeRow` | configuration/postgres/postgres.go:192-214 | The field loop with its nested metadata loop returns `RowOf`: no row if any matched field has the wrong type, otherwise the last key/value/version strings and the merged metadata |
| `Notification.HandleSubscribedChange` | configuration/postgres/postgres.go:179-229 | The event handed to the handler is exactly `Dispatched(payload, id)` |
| `Notification.LastNamedWins` | configuration/postgres/postgres.go:197-206 | The decoded text is that of the last field whose name matches case-insensitively |
| `Notification.AbsentNameIsEmpty` | configuration/postgres/postgres.go:192 | With no field of that name the text stays empty |
| `Notification.LastTextAppend` | configuration/postgres/postgres.go:197-206 | Over a concatenation, the later part's text wins when it has the name |
| `Notification.MetadataAppend` | configuration/postgres/postgres.go:207-211 | Metadata objects merge left to right, later entries overriding earlier ones |
| `Notification.NoMetadataField` | configuration/postgres/postgres.go:193 | Without a metadata field the metadata map stays empty |
| `Notification.DecodesAppend` | configuration/postgres/postgres.go:199-211 | A field list decodes without a panic exactly when both of its parts do |
| `Notification.UnmatchedFieldIgnored` | configuration/postgres/postgres.go:200-212 | Inserting a field named none of key/value/version/metadata anywhere leaves the decoded row unchanged |
| `Notification.SwapDistinctNames` | configuration/postgres/postgres.go:197-213 | Swapping two neighbouring fields whose lower-cased names differ leaves the row unchanged, so map iteration order only matters between same-named fields |
| `Notification.EventKeyIsTheKeyField` | configuration/postgres/postgres.go:197-224 | With a well-typed data object holding exactly one key field, the event's only item is under that field's string |
| `Notification.WrongTypeDropsEvent` | configuration/postgres/postgres.go:180-184 | A matched field of the wrong type (recovered panic) means the handler is not called |
| `Notification.MissingDataStillDispatched` | configuration/postgres/postgres.go:195-224 | Without a `data` object an event under the empty key with empty value, version and metadata is still dispatched |
| `Notification.MixedCaseExample` | configuration/postgres/postgres.go:185-224 | `{"data":{"Key":"k1","Value":"v1","Version":"1","Metadata":{"m":"x"}}}` yields the event `{"k1": ("v1", "1", {"m":"x"})}` |

## Left out

- `Init`, `Connect`, `QueryRow` and `Get`: connecting to the database, pinging it and reading rows are I/O through the pgx client library.
- `doSubscribe`: acquiring a pooled connection, running `LISTEN` and waiting for notifications under a timeout is network I/O in a goroutine.
- `doSubscribe` never reads its stop channel: it waits only on a context made once with the idle timeout. In the Go code, closing a stop channel through `Subscribe` or `Unsubscribe` therefore does not stop notifications. The model states only which stop channels are open or closed, never whether a listener runs.
- The goroutine started by `Subscribe` and the atomicity of `sync.Map`: the registry is modelled sequentially.
- `uuid.New()` is not modelled. `Subscribe` takes the fresh identifier as a parameter and requires it to be unregistered.
- `time.ParseDuration` is not modelled. `ParseMetadata` receives it as a function parameter.
- `json.Unmarshal` of the raw bytes is not modelled. The payload is the parsed JSON value, or `Malformed` when unmarshalling fails.
- JSON numbers are kept as values that are never inspected. Only their type matters to the decoder.
- Object fields are given in Go's map iteration order, with the duplicates of the raw JSON text already resolved by the decoder.
- Logging, the handler's own behaviour and the handler's error return, which is only logged.
- `Subscriptions.ConfigurationStore.Subscribe`: requires the channel found under `listen <table>` to be open. Closing a closed channel panics in Go, and the model does not represent that panic.
- `Subscriptions.ConfigurationStore.Unsubscribe`: requires the channel of a registered id to be open, for the same reason.
- `Notification.Lower`: lowers only the runes whose lower case is ASCII. All other runes keep their identity, so comparing with the four ASCII field names gives the same answer as in Go, but the lowered string itself can differ from Go's.
- `Metadata.ParseMetadata`: the errors are Go `error` values built by `fmt.Errorf`; the model keeps their texts as `ParseError.Message`.
