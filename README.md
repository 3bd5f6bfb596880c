# change_flare in Dafny

A model of the dynamic-DNS updater `change_flare`. Each iteration of its main loop does three things. It asks a STUN server for the host's public address. It fetches the DNS records of a Cloudflare zone. It then sends an update for every record whose content is not that address. The model covers two parts of the program:

- the reconciliation loop of `src/core.rs`, including the record equality `Record::eq`;
- the Cloudflare provider of `src/cloudflare/mod.rs`: its configuration, the records cached from the last good fetch, and the update call.

Modules:

- `Base` (`base.dfy`): the standard library values the program uses. These are `IpAddr`, `SocketAddr`, the fixed-width integers `u16`, `u32` and `usize` (a 64-bit `usize` is assumed), and Option/Result.
- `CloudFlare` (`cloudflare.dfy`): `CloudFlareConfig` with `new` (`NewConfig`) and `default` (`DefaultConfig`). Also `usize::from_str` (`ParseUsize`), `CloudFlareRecord` and its `update_content`, and the `filter_map` that turns a list response into records (`FilterRecords`). The provider is the class `CloudFlareApi`. Its `records` field is the cache. `GetRecords` and `UpdateRecord` change that state, and ghost logs record every fetch, every update argument and every PUT request.
- `Core` (`core.dfy`): `Eq` (`Record::eq`) and the class `Updater`. `RunCycle` is one iteration of `Updater::run`. `Run` runs as many iterations as it is given inputs for. `Refreshed` is a separate definition of what a cycle should send, and `CycleUpdatesAreRefreshed` proves that the loop sends exactly that. `Replay` gives the effect of a sequence of iterations.

The HTTP exchanges are inputs. A list request ends as a `FetchOutcome`: a header, send, body or JSON failure, or a decoded `{success, result}` body. An update request ends as a `PutOutcome`. The STUN lookup is a `Result<SocketAddr>` input. Parsing an `IpAddr` from a string is a function parameter `parse`. The environment (after the `.env` file is loaded) is a map.

Two behaviours of the code that the model keeps as they are:

- A failed lookup does not sleep. The `continue` at `src/core.rs:30` retries at once. `RunCycle` returns `None` for "no sleep", and `ReplayUnresolved` shows that a run of failed lookups does nothing at all.
- Only `CloudFlareConfig::new` clamps the poll rate to at least 60. `CloudFlareConfig::default` takes the environment's value as it is (`DefaultConfigNotClamped`), even below 60.

## Model

| member | source | states |
|---|---|---|
| `CloudFlare.ParseUsizeDecimal` | src/cloudflare/mod.rs:175-178 | a poll rate written in decimal in the environment is parsed back to exactly that number |
| `CloudFlare.ParseUsize` | src/cloudflare/mod.rs:177 | a string parses only if, after an optional leading `+`, it is one or more decimal digits and nothing else (so `"60 "` or `"300s"` do not parse and the poll rate falls back to 300); a leading `-` never parses; a string of digits parses to its value when that is below 2^64, and to nothing otherwise; a leading `+` does not change the value |
| `CloudFlare.DefaultConfig` | src/cloudflare/mod.rs:166-201 | the default poll rate is the environment's value when it parses as usize, else 300; a missing key or zone id becomes the empty string |
| `CloudFlare.DefaultConfigNotClamped` | src/cloudflare/mod.rs:175-178 | the default configuration does not clamp: any poll rate written in decimal in the environment, below 60 included, is taken as it is |
| `CloudFlare.NewConfig` | src/cloudflare/mod.rs:205-223 | poll rate is max(arg, 60): below 60 becomes 60, otherwise unchanged; a non-empty key is kept, an empty one replaced by the environment's; the zone id always comes from the environment |
| `CloudFlare.NewConfigKeyIgnoresEnv` | src/cloudflare/mod.rs:209-214 | with a non-empty key, the key and poll rate do not depend on the environment at all |
| `CloudFlare.NewConfigExample` | src/cloudflare/mod.rs:305-311 | the unit test's case: poll rate 30 with key "test_key" gives 60 and "test_key" |
| `CloudFlare.CloudFlareRecord.GetId` | src/cloudflare/mod.rs:238-240 | returns the record's id |
| `CloudFlare.CloudFlareRecord.GetName` | src/cloudflare/mod.rs:242-244 | returns the record's name |
| `CloudFlare.CloudFlareRecord.GetContent` | src/cloudflare/mod.rs:246-248 | returns the record's address |
| `CloudFlare.FromResult` | src/cloudflare/mod.rs:93-101 | a fetched record takes the parsed address as content, `Some(id)` as its id, and the result's name, type, ttl, proxied flag and zone id |
| `CloudFlare.CloudFlareRecord.UpdateContent` | src/cloudflare/mod.rs:250-254 | the copy has the new content, and restoring the old content gives back the original record (every other field is unchanged) |
| `CloudFlare.FilterRecords` | src/cloudflare/mod.rs:81-103 | a fetch yields at most as many records as the response has results |
| `CloudFlare.FilterRecordsAppend` | src/cloudflare/mod.rs:81-103 | filtering is done result by result, so the response order is kept |
| `CloudFlare.FilterRecordsMembers` | src/cloudflare/mod.rs:84-102 | a record is fetched iff some result's content parses as its address and it carries that result's id (as `Some`), name, type, ttl, proxied flag and zone id |
| `CloudFlare.FilterRecordsAllParse` | src/cloudflare/mod.rs:84-103 | when every content parses, the fetch keeps the full length and converts the results one for one |
| `CloudFlare.PutRequestFor` | src/cloudflare/mod.rs:122-137 | the request goes to the configured zone and to the record's id (empty when it has none); its body carries the record's content, name, proxied flag, type and ttl |
| `CloudFlare.PutRequestDetermines` | src/cloudflare/mod.rs:122-137 | an update request is determined exactly by the record id (missing reads as empty), content, name, proxied flag, type and ttl, and goes to the configured zone |
| `CloudFlare.CloudFlareApi.constructor` | src/cloudflare/mod.rs:22-27 | a provider built with `new` has the clamped configuration and an empty cache |
| `CloudFlare.CloudFlareApi.Default` | src/cloudflare/mod.rs:12-16 | a default provider has the environment's configuration and an empty cache |
| `CloudFlare.CloudFlareApi.GetPollRate` | src/cloudflare/mod.rs:154-156 | returns the configured poll rate |
| `CloudFlare.CloudFlareApi.GetRecords` | src/cloudflare/mod.rs:29-106 | every failure (header, send, body, JSON, `success == false`) leaves the cache unchanged and returns it; success replaces the cache with the filtered results and returns it |
| `CloudFlare.CloudFlareApi.UpdateRecord` | src/cloudflare/mod.rs:107-152 | returns its argument unchanged whether the PUT succeeds or fails; logs the call and the request sent; the cache and configuration are untouched |
| `Core.Eq` | src/core.rs:78-82 | two records are equal iff their content, id and name are equal |
| `Core.EqIgnoresMetadata` | src/core.rs:78-82 | changing ttl, proxied flag, type or zone id never changes whether two records are equal |
| `Core.EqEquivalence` | src/core.rs:78-82 | record equality is reflexive, symmetric and transitive, so an unmodified clone never triggers an update |
| `Core.Candidate` | src/core.rs:35-41 | the candidate always holds the resolved address and is otherwise the record itself |
| `Core.CandidateChanged` | src/core.rs:35-44 | the candidate is not equal to its record iff the record's content is not the resolved address |
| `Core.Refreshed` | src/core.rs:33-45 | a cycle sends at most as many updates as the snapshot has records, each pointing at the resolved address |
| `Core.RefreshedAppend` | src/core.rs:34-45 | updates are sent in snapshot order: the updates for a concatenation are those of each part, in order |
| `Core.CycleUpdatesAreRefreshed` | src/core.rs:34-45 | the loop body sends exactly the snapshot records whose content differs from the resolved address, with only the content replaced, in snapshot order |
| `Core.RefreshedMembers` | src/core.rs:38-44 | a record is sent iff it is some snapshot record whose content differs from the address, with only that content replaced |
| `Core.RefreshedEmpty` | src/core.rs:38-44 | a cycle sends nothing iff every record already holds the resolved address |
| `Core.ExampleStaleRecord` | src/core.rs:38-44 | one record at 203.0.113.5 and address 203.0.113.9 give one update with only the content changed |
| `Core.ExampleCurrentRecord` | src/core.rs:38-44 | a record already at the resolved address gives no update |
| `Core.Replay` | src/core.rs:25-47 | over any run, at most one sleep per iteration, and every sleep lasts the poll rate |
| `Core.ReplayUnresolved` | src/core.rs:26-31 | while every lookup fails the loop fetches nothing, updates nothing and never sleeps |
| `Core.Updater.constructor` | src/core.rs:18-22 | the updater's provider is built with `new` from the poll rate and key, with an empty cache and empty logs |
| `Core.Updater.RunCycle` | src/core.rs:26-46 | a failed lookup does nothing (no fetch, no update, no sleep); otherwise one fetch, updates exactly `Refreshed` of the fetched snapshot (and sends one PUT request per update), the snapshot is not changed by the updates, and the sleep is `GetPollRate()` |
| `Core.Updater.Run` | src/core.rs:24-48 | running the loop over a sequence of iteration inputs has the effect `Replay` gives: the final cache, the updates sent and the sleeps taken |

## Left out

- The HTTP transport (client, headers, `send`, `error_for_status`) is not modelled. Its results are the `FetchOutcome` and `PutOutcome` inputs. Whether an API key makes a valid header is part of that input.
- JSON encoding and decoding is not modelled. Only the decoded response shape (`CloudflareResult`) and the payload's field set (`Payload`) are.
- `IpAddr::to_string` is not modelled, so the payload carries the address itself. `str::parse::<IpAddr>` is the parameter `parse`.
- The STUN lookup inside `check_ip` (UDP bind, DNS lookup of the STUN host, the STUN exchange) is not modelled. Its result is the `Result<SocketAddr>` input.
- Loading the `.env` file and reading the environment are not modelled. The environment is a fixed map. `new` calls `default` once, or twice when the key argument is empty, and the model assumes every call sees the same environment.
- `env::var` failing on a value that is not valid Unicode is not modelled.
- The thread spawn and join in `src/main.rs` are not modelled. `thread::sleep` is represented only by the returned duration. All logging is left out.
- The loop in `Updater::run` never ends. It is modelled as one iteration (`RunCycle`) and as a finite run over a given sequence of inputs (`Run`).
- The program's loop is generic over the `ApiTrait`/`Record` pair (src/core.rs:10-22, 51-83). The model fixes it to the only implementation, `CloudFlareApi`/`CloudFlareRecord`, so every property of the loop is proved for the Cloudflare instance only.
- The entry point in `src/main.rs:7` builds its updater with `Updater::<CloudFlareApi>::default()`, but `src/core.rs` defines no `Default` for `Updater`. The model offers only `Updater::new` (`Core.Updater.constructor`), and that `default()` route is not modelled.
- The unused `Config` trait is not part of this model, and neither is the mockito test harness.
- `Core.Updater.Run`: states the cache, the updates and the sleeps of a run; it does not state the PUT request log or the fetch count beyond what `RunCycle` says per iteration.
