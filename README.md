# dnsfwd: a verified model of the query handler

dnsfwd is a DNS forwarding filter. It listens on one or more local
transports. It admits the queries whose question names fall under a
configured list of domain suffixes and relays each admitted query to one
upstream resolver, either directly or through a SOCKS5 tunnel. The
upstream's reply goes back to the client unchanged. This project models the
per-query handler `checkQuery` and the start-up derivations it depends on,
and proves properties of that model.

The files:

- `strings.dfy` (module `GoStrings`): the parts of Go's `strings` package the
  handler uses. These are `ToLower` (ASCII case mapping), `HasSuffix`,
  `Split` on a one-character separator, and `Join` as the inverse of `Split`.
- `dns.dfy` (module `Dns`): a DNS message as a value. It has the sections,
  the fields the handler sets (the authoritative bit and compression), and
  the header fields that rebuilding the query resets (ID, opcode,
  recursion desired, checking disabled), plus the reply flag. The wire
  format is not modelled.
- `filter.dfy` (module `Filter`): the admission test. `SuffixMatch` is the
  test at line 107. `NameAdmitted` holds when some suffix matches. `Admits`
  is the whole-query decision, including the list-emptiness guard.
  `CheckAdmission` is the nested loop with its `onematch` flag, `break` and
  early return. It is proved equal to `Admits`.
- `relay.dfy` (module `Relay`): the configuration and the outbound message
  (`Outbound`, built field by field in `BuildOutbound`). It also holds the
  client settings (`ClientFor`, set field by field in `ConfigureClient`) and
  the 64-bit wrap-around of the nanosecond timeout. `Handle` is a pure
  statement of what one invocation does: the dials, exchanges and closes it
  causes, what it writes, and how it ends. `CheckQuery` is the handler
  itself. It runs against two objects that record their effects:
  `Upstream` records dials, exchanges and closes, and answers from two fixed
  functions; `ResponseWriter` records writes. It is proved to do exactly
  what `Handle` says.
- `startup.dfy` (module `Startup`): the version banner, and the derivation
  of the suffix list and the transport list from the comma-separated flags.

The help text of the `-d` flag (dnsfwd.go:36) calls the configured value the
"highest level domain you'd like to filter on", which suggests matching whole
labels under that domain and a filter that is off when no domain is given.
Where the code does otherwise, the model follows the code:

- The suffix test is a raw string suffix test. It is not anchored at a label
  boundary. With suffix `example.com`, the name `notexample.com.` is
  admitted (`RawSuffixAdmitsNotexample`).
- An empty domain flag does not switch the filter off. `Split("", ",")` is
  `[""]`, so the handler's emptiness guard is always true. The lone suffix
  `""` becomes `"."`, which admits exactly the names that end in `.`
  (`EmptyDomainFlag`). The model still keeps the guard, so `Admits` with an
  empty list admits everything.
- A configured timeout of 2 leaves the client's timeout unset, so it behaves
  exactly like 0 (`TimeoutTwoIsUnset`).
- The SOCKS path sends the rebuilt message, which has ID 0, opcode QUERY and
  neither the recursion-desired nor the checking-disabled bit. The direct path sends the query as received
  (`ExchangedQueryHeader`). A responder copies the query's ID into its reply
  (section 4.1.1 of RFC 1035), and the handler writes the reply unchanged.
  So on the SOCKS path the client gets a reply with ID 0, which it cannot
  match to its query unless its own ID was 0 (`SocksReplyHasIdZero`); see "## Findings".
- If the tunnel cannot be dialled, the connection is nil. Evaluating
  `conn.Close` for the deferred call then panics, so the query gets no
  exchange and no write. The model ends such a run with the outcome
  `Panicked`.

## Model

| member | source | states |
|---|---|---|
| `GoStrings.ToLower` | dnsfwd.go:107 | lower-casing preserves the length of a name |
| `GoStrings.ToLowerAt` | dnsfwd.go:107 | lower-casing acts on every character independently |
| `GoStrings.ToLowerConcat` | dnsfwd.go:107 | `ToLower(a + b) == ToLower(a) + ToLower(b)`, so lower-casing `y + "."` is `ToLower(y) + "."` |
| `GoStrings.ToLowerIdempotent` | dnsfwd.go:107 | lower-casing an already lower-cased name changes nothing |
| `GoStrings.ToLowerOfUpper` | dnsfwd.go:107 | upper-casing first does not change the lower-cased form |
| `GoStrings.ToLowerOfLower` | dnsfwd.go:107 | a string without capitals is its own lower-case form |
| `GoStrings.HasSuffix` | dnsfwd.go:107 | `strings.HasSuffix`: the string is at least as long as the suffix and its last characters are the suffix; its partner is `HasSuffixIff` |
| `GoStrings.HasSuffixIff` | dnsfwd.go:107 | `HasSuffix(s, t)` holds exactly when `s` is some string followed by `t` |
| `GoStrings.Split` | dnsfwd.go:70 | the pieces number one more than the separators, so the list is never empty, and no piece contains the separator |
| `GoStrings.SplitEmpty` | dnsfwd.go:70 | splitting the empty string yields `[""]` |
| `GoStrings.JoinSplit` | dnsfwd.go:70 | joining the pieces with the separator gives back the flag string |
| `GoStrings.SplitJoin` | dnsfwd.go:70 | splitting the join of separator-free pieces gives back the pieces |
| `Filter.SuffixMatch` | dnsfwd.go:107 | the test of one name against one suffix: the lower-cased name ends with the lower-cased suffix followed by "."; its partners are `SuffixMatchLowered` and `UpperCaseNameAndSuffix` |
| `Filter.NameAdmitted` | dnsfwd.go:106-111 | the inner loop's verdict: some suffix of the list matches the name; its partner is `NameAdmittedIff` |
| `Filter.Admits` | dnsfwd.go:103-118 | the whole decision: when the list is non-empty, every question name is admitted; its partner is `CheckAdmission`, proved equal to it |
| `Filter.CheckAdmission` | dnsfwd.go:103-122 | the nested admission loop returns true exactly when every question is matched by some suffix, or the list is empty |
| `Filter.SuffixMatchLowered` | dnsfwd.go:107 | the test `HasSuffix(lower(name), lower(y + "."))` equals `HasSuffix(lower(name), lower(y) + ".")` |
| `Filter.NameAdmittedIff` | dnsfwd.go:106-111 | a name is admitted iff its lower-case form ends with `lower(y) + "."` for some suffix `y` in the list |
| `Filter.UnmatchedQuestionRejects` | dnsfwd.go:112-117 | one question that no suffix matches rejects the whole query |
| `Filter.AdmitsIgnoresCase` | dnsfwd.go:106-110 | names and suffixes that agree up to letter case give the same decision |
| `Filter.UpperCaseNameAndSuffix` | dnsfwd.go:107 | writing a name or a suffix in capitals does not change the test |
| `Filter.AdmitsOrderIndependent` | dnsfwd.go:106-110 | suffix lists with the same members, in any order and with repetitions, give the same decision |
| `Filter.AnyPrefixAdmitted` | dnsfwd.go:107 | a suffix admits itself plus "." with any string in front, whether or not that string ends at a label boundary |
| `Filter.RawSuffixAdmitsNotexample` | dnsfwd.go:107 | suffix `example.com` admits `notexample.com.`: the match is not label-anchored |
| `Filter.RawSuffixRejectsEvil` | dnsfwd.go:107 | suffix `example.com` rejects `example.com.evil.` |
| `Filter.EmptySuffixAdmitsFqdn` | dnsfwd.go:104-107 | the suffix `""` admits exactly the names that end in "." |
| `Filter.NoQuestionsAdmitted` | dnsfwd.go:103 | a query with no questions passes the filter |
| `Relay.WrapInt64` | dnsfwd.go:129 | the product is reduced modulo 2^64 into the signed 64-bit range, and is unchanged when already in range |
| `Relay.Outbound` | dnsfwd.go:123-126 | the rebuilt message carries exactly the query's questions, with compression off, the authoritative bit set, and every other modelled field at its zero value |
| `Relay.BuildOutbound` | dnsfwd.go:123-126 | the field-by-field build yields `Outbound(r)` |
| `Relay.ClientFor` | dnsfwd.go:127-132 | the client's net is the upstream transport and its UDP size is 0xffff; its timeout is 0 when the configured timeout is 2, and otherwise that many seconds as a wrapped 64-bit nanosecond count |
| `Relay.ConfigureClient` | dnsfwd.go:127-132 | the field-by-field configuration yields `ClientFor(cfg)` |
| `Relay.TunnelFor` | dnsfwd.go:136-140 | the SOCKS tunnel: TCP to the proxy at `127.0.0.1:1080`, then TCP to the upstream address; stated by `SocksPathSendsOutbound` |
| `Relay.ExchangeOf` | dnsfwd.go:135-151 | the exchange an admitted query leads to: the given message through the tunnel in SOCKS mode, the query itself to the upstream otherwise |
| `Relay.ExchangeFor` | dnsfwd.go:123-151 | the handler's exchange, with the rebuilt message on the SOCKS path; stated by `ExchangedQueryHeader` |
| `Relay.HandleSending` | dnsfwd.go:102-164 | one invocation of the handler with a given message for the tunnel: rejection, or dial, exchange, write and then the deferred close; the trace keeps the write apart from the network events |
| `Relay.Handle` | dnsfwd.go:102-164 | one invocation of the handler as written; its partner is `CheckQuery`, proved equal to it, with the lemmas below |
| `Relay.ResponseWriter.WriteMsg` | dnsfwd.go:163 | one write appends the message to what the client received |
| `Relay.Upstream.Dial` | dnsfwd.go:140-143 | the dial result is recorded and reported |
| `Relay.Upstream.Exchange` | dnsfwd.go:148-150 | one exchange is recorded and its result returned |
| `Relay.Upstream.Close` | dnsfwd.go:144 | the close of the tunnel is recorded |
| `Relay.CheckQuery` | dnsfwd.go:102-164 | the handler's outcome, its network events and its writes are exactly those given by `Handle` |
| `Relay.RejectionHasNoEffect` | dnsfwd.go:112-117 | the outcome is `Rejected` iff the filter does not admit the query, and then there is no dial, exchange or write |
| `Relay.NoQuestionsForwarded` | dnsfwd.go:103-150 | a query with no questions is never rejected, and is exchanged upstream unless the tunnel fails |
| `Relay.DirectPathSendsOriginal` | dnsfwd.go:149-150 | without SOCKS, the one event is an exchange of the original query with the configured client at the upstream address |
| `Relay.SocksPathSendsOutbound` | dnsfwd.go:135-148 | with SOCKS, the handler dials the upstream over TCP through `127.0.0.1:1080`, exchanges the rebuilt message on a connection whose UDP size is the client's, then closes the tunnel; a failed dial panics with no write |
| `Relay.TunnelAlwaysReleased` | dnsfwd.go:144 | every opened tunnel is closed, as the last network event |
| `Relay.AtMostOneExchange` | dnsfwd.go:135-151 | no query causes two exchanges |
| `Relay.WriteOnlyOnSuccess` | dnsfwd.go:153-163 | a write happens iff the query is admitted, the tunnel (if any) opens and the exchange succeeds; then it is exactly one write of the upstream reply, unchanged |
| `Relay.ExchangedQueryHeader` | dnsfwd.go:123-150 | the SOCKS path sends ID 0, opcode QUERY, and neither recursion desired nor checking disabled; the direct path sends the query as received; both carry the query's questions |
| `Relay.SocksReplyHasIdZero` | dnsfwd.go:123-163 | with SOCKS and an upstream that echoes IDs, every reply written to the client has ID 0, and so never the query's own non-zero ID |
| `Relay.DirectReplyHasQueryId` | dnsfwd.go:150-163 | without SOCKS and with an upstream that echoes IDs, every reply written to the client has the query's ID |
| `Relay.IntendedOutbound` | dnsfwd.go:123-126 | the rebuilt message with the query's ID carried over; apart from the ID it is `Outbound(r)` |
| `Relay.IntendedHandle` | dnsfwd.go:102-164 | the handler with `IntendedOutbound` sent through the tunnel |
| `Relay.IntendedReplyMatchesQuery` | dnsfwd.go:123-163 | with the ID carried over and an upstream that echoes IDs, every reply carries the query's ID on both paths; the direct path and the filter are unchanged |
| `Relay.TimeoutTwoIsUnset` | dnsfwd.go:128-130 | a configured timeout of 2 gives the same client as 0 |
| `Relay.TimeoutInSeconds` | dnsfwd.go:129 | any other timeout from -9223372036 to 9223372036 seconds becomes exactly that many seconds |
| `Relay.TimeoutOverflowWraps` | dnsfwd.go:129 | a timeout of 9223372037 seconds wraps to a negative duration |
| `Relay.TimeoutUnderflowWraps` | dnsfwd.go:129 | a timeout of -9223372037 seconds wraps to a positive duration of about 292 years |
| `Startup.Banner` | dnsfwd.go:50-56 | `dnsfwd ` followed by the version, or by `UNTAGGED LOCAL BUILD` when none was embedded; stated by `BannerShowsVersion` |
| `Startup.Start` | dnsfwd.go:50-72 | the start-up decision: the banner when the version flag is set, otherwise the configuration with the suffix list and the transport list split on commas |
| `Startup.BannerShowsVersion` | dnsfwd.go:50-56 | the banner is `dnsfwd UNTAGGED LOCAL BUILD` for an empty version, and otherwise `dnsfwd ` followed by the version |
| `Startup.BannerCollision` | dnsfwd.go:51-55 | a build tagged `UNTAGGED LOCAL BUILD` prints the same banner as an untagged one |
| `Startup.VersionFlagServesNothing` | dnsfwd.go:50-57 | with the version flag, the program prints the banner and serves nothing |
| `Startup.SuffixListFromFlag` | dnsfwd.go:70 | the suffix list is never empty, contains no commas, and rejoined with commas is the domain flag |
| `Startup.EmptyDomainFlag` | dnsfwd.go:70 | an empty domain flag gives `[""]`, which admits a query iff every question name ends in "." |

## Left out

- The listener supervision in `startServer` (dnsfwd.go:85-100): an endless
  listen, log and sleep-5-seconds loop. It is I/O and timing only.
- The goroutines, the wait group and the 200 ms stagger in `main`
  (dnsfwd.go:74-82): concurrency. The wait group's `Done` is never called,
  so `Wait` blocks forever. The transport list is derived (`Start`), but the
  listeners it starts are not modelled.
- Flag parsing, flag defaults and the log-file set-up (dnsfwd.go:36-48,
  58-67): library calls and file I/O. The model starts from parsed flags.
- All logging (`log.Printf`, `fmt.Fprintln`) and the verbose and full-query
  switches: these print only and do not change behaviour.
- The DNS wire format, the resolver library's `Exchange` and
  `ExchangeWithConn`, the SOCKS5 handshake and the sockets: foreign code.
  The upstream is two fixed functions. One says whether a tunnel opens. The
  other gives each exchange's result, either a reply or an error. Timeouts
  and I/O failures are part of that error. The same exchange always gets
  the same answer within one model run.
- The proxy constructor's error branch (dnsfwd.go:137-139) is folded into
  the dial. Either failure leaves a nil value that the next call
  dereferences, and the model ends that run as `Panicked`. What the server
  does after a panic in a handler is outside the model.
- The upstream's reply is abstract. The lemmas about reply IDs assume an
  upstream that copies the query's ID into its reply (`EchoesId`), as section
  4.1.1 of RFC 1035 requires. Whether the resolver library itself checks the
  reply's ID is library code and not part of this model.
- GoStrings.ToLower: maps only ASCII letters. Go's `strings.ToLower` also
  maps non-ASCII letters. Question names arrive in ASCII presentation form,
  but a suffix given on the command line with non-ASCII letters would be
  lower-cased differently.
- Relay.Handle, Relay.HandleSending: the trace keeps the writes in their own
  list, apart from the network events. So these functions do not state that
  the reply is written (dnsfwd.go:163) before the deferred close of the
  tunnel (dnsfwd.go:144) runs.
- Dns.Msg: the header fields TC, RA, Z and AD, and the rcode are not
  modelled. `new(dns.Msg)` at dnsfwd.go:123 resets them too
  on the SOCKS path, so the rebuilt message does not carry the query's
  values for them either. The model does not state this for those fields.
- Relay.CheckQuery: returns instead of panicking on a failed dial. The
  network events and the writes are kept in two separate logs, so the
  model does not state that the reply is written before the tunnel is
  closed. The method itself performs them in that order.
- Go's `int` is taken to be 64 bits wide, the size on the platforms the
  program is built for.

## Findings

| source | as written | input that shows it | evidently intended | confidence | as-written member | corrected member |
|---|---|---|---|---|---|---|
| dnsfwd.go:123-126, 148, 163 | the SOCKS path sends `new(dns.Msg)` with only the questions copied, so its ID is 0; the upstream's reply, with ID 0, is written to the client unchanged | `-s` set, a query with ID 1234 for an admitted name, an upstream that echoes IDs: the client receives ID 0 | the rebuilt message carries the query's ID, so the client receives a reply with its own ID | high, not executed | `Relay.SocksReplyHasIdZero` | `Relay.IntendedReplyMatchesQuery` (on `Relay.IntendedHandle`) |

`Relay.CheckQuery` and the lemmas about `Relay.Handle` model the code as
written. `IntendedHandle` differs only in the ID of the message sent through
the tunnel.
