# go_mailer `Send`, modelled in Dafny

This project models the core of the Go package `mailer` (`mailer.go`), which
sends one e-mail message over SMTP. It covers four parts:

- **The records and their constructors**: `Params`, `Header`, `Body`,
  `AuthConfig` with its CRAM-MD5 and PLAIN variants, and `GenParams`,
  `GenHeader`, `GenCRAMMD5Auth` and `GenPlainAuth`. They live in module
  `Mailer`, `mailer.dfy`.
- **The boundary generator** `genBoundary`. It fills a 32-byte buffer with
  characters drawn from `1234567890abcdefghijklmnopqrstuvwxyz`. It lives in
  module `Boundary`, `boundary.dfy`.
- **The message assembler** at the start of `Send`. It writes the four
  header lines by ranging over a Go map. It then writes either the single
  body as it is, or a `multipart/alternative` envelope around two bodies or
  more. It lives in module `Assembly`, `assembly.dfy`.
- **The SMTP conversation** of `Send`. It connects, either with a TLS dial
  and a client or with a plain dial. It then authenticates with each
  configured mechanism, CRAM-MD5 first, and sends MAIL, RCPT and DATA. It
  writes the message, closes the data writer and sends QUIT. It stops at the
  first step that fails and returns an error naming that step, except a
  failed close of the data writer, which is reported as a Quit() failure. The
  connection is closed on every exit after a successful connect. This part
  lives in module `Session`, `session.dfy`.

The model does not make these behaviours deterministic:

- **Header order.** A Go map has no defined iteration order. `WriteHeader`
  therefore picks the next key with `:|` from the keys not yet written. Every
  property of the header block is stated for every visiting order
  (`IsFieldOrder`).
- **Boundary draws.** The random draws of `genBoundary` are an input: one
  index in [0, 36) per character.
- **Server replies.** The network and the SMTP client are a `Server` object.
  It records each command it receives, and a `reply` function fixed in
  advance says whether a command fails and with which cause.

`RunUntilFailure` defines the first-failure semantics: issue the commands in
order and stop at the first one that fails. `Expected` uses it to define
what one `Send` does to the server. Every method is proved against these
functions, and the lemmas state the properties of `Send`.

Three facts about the code shape the model:

- **Header order.** The code writes the four header lines in Go map order,
  so every header property is stated for every visiting order, and the model
  proves that the header block is some permutation of the four lines.
- **Body count.** The code accepts an empty body list and then writes only
  the header block (`NoBodyLayout`).
- **No blank line.** The code writes no empty line between the header lines
  and the content that follows. The model keeps that layout as written.

## Model

| member | source | states |
|---|---|---|
| Mailer.GenParams | mailer.go:348-357 | every field of the parameters is the argument given for it |
| Mailer.GenCramMd5Auth | mailer.go:363-371 | the configuration holds the CRAM-MD5 user name and secret and no PLAIN variant, so exactly one mechanism is set |
| Mailer.GenPlainAuth | mailer.go:377-386 | the configuration holds the PLAIN user name, password and host and no CRAM-MD5 variant, so exactly one mechanism is set |
| Mailer.GenHeader | mailer.go:428-435 | from, to, subject and MIME version each land in their own field, although the argument order differs from the field order |
| Boundary.GenBoundary | mailer.go:489-497 | filling the buffer position by position yields the boundary spelled by the draws: 32 characters, each from the alphabet |
| Boundary.AlphabetIndex | mailer.go:490 | no character occurs twice in the alphabet: the index of the character at position i is i |
| Boundary.DrawsRoundTrip | mailer.go:489-497 | the draws can be read back from the boundary, so distinct draws give distinct boundaries |
| Boundary.AlphabetIsAlphanumeric | mailer.go:490 | every alphabet character is a digit or a lower-case letter |
| Boundary.GeneratedBoundaryIsValid | mailer.go:489-497 | every generated boundary has 1 to 70 characters allowed in a boundary and does not end in a space, as section 5.1.1 of RFC 2046 requires |
| Assembly.AssembleMessage | mailer.go:252-276 | the bytes written are the header lines in some visiting order of the header map, followed by the body section for the boundary spelled by the draws |
| Assembly.WriteHeader | mailer.go:253-261 | ranging over the header map in any order writes one line per key, and the order visited is a permutation of the four names |
| Assembly.WriteBodies | mailer.go:262-276 | the body loop writes nothing for no body, the bare content for one body, and otherwise the envelope line, one delimited part per body in the caller's order and the close delimiter |
| Assembly.WrittenGrows | mailer.go:267-273 | one round of the body loop appends the part of the next body, delimited when there are two bodies or more |
| Assembly.WrittenAll | mailer.go:274-276 | after the last round, the close delimiter (multipart only) completes the body section |
| Assembly.FieldNamesAreTheKeys | mailer.go:253-257 | the header map's keys are the four names, each once |
| Assembly.ConcatAppend | mailer.go:259-261 | appending two lists of lines appends their texts |
| Assembly.MapSeqPermute | mailer.go:259-261 | writing the lines for two orders that are permutations of each other gives permutations of each other |
| Assembly.HeaderBlockIsPermutation | mailer.go:253-261 | for every visiting order, the header block has four lines, holds each of From, To, Subject and MIME-version exactly once, and is a prefix of the message |
| Assembly.CanonicalLines | mailer.go:253-260 | visiting the map in insertion order gives the four lines in that order |
| Assembly.HeaderLinesDistinct | mailer.go:254-257 | the four header lines are pairwise different |
| Assembly.NoBodyLayout | mailer.go:262-276 | with no body the message is the header block alone |
| Assembly.SingleBodyLayout | mailer.go:270-272 | with one body the message is the header block followed by the body's Content-Type line, its data and CRLF, whatever the boundary |
| Assembly.NoBoundaryBelowTwoBodies | mailer.go:263-266 | below two bodies every message the assembler can produce for one set of draws it can also produce for any other |
| Assembly.MultipartLayout | mailer.go:263-276 | with two bodies or more, each body's part sits between the parts before and after it, all opened by the boundary that the envelope line announces and that closes the envelope |
| Assembly.LastBodyIsLastPart | mailer.go:267-276 | with two bodies or more the message ends with the last body's part followed by the close delimiter |
| Session.Text | mailer.go:284-333 | the error message is the prefix naming the failed function followed by the cause, unchanged |
| Session.TextInjective | mailer.go:284-333 | the message tells which function failed and carries the cause: two errors with the same message have the same origin and the same cause |
| Session.Server.Perform | mailer.go:282-332 | a command is recorded in the log and fails exactly as the server's reply says |
| Session.Server.Close | mailer.go:296 | closing the connection appends one close event to the log |
| Session.RunCharacterized | mailer.go:278-335 | a run issues a prefix of its commands; every issued command but the last succeeded; with no error it issued them all and all succeeded; with an error the last issued command failed and the error names it with its cause |
| Session.RunStopsAt | mailer.go:278-335 | when command k is the first to fail, the run issues exactly the commands up to k and returns k's error |
| Session.RunCompletes | mailer.go:278-335 | when no command fails, the run issues them all and returns no error |
| Session.RunConcat | mailer.go:278-335 | running two batches one after the other is running them joined: the second starts only if the first succeeds |
| Session.EventsAppend | mailer.go:278-335 | the log of two batches is the log of the first followed by that of the second |
| Session.Connect | mailer.go:278-296 | the connect steps (TLS dial then client, or a plain dial) are issued until the first failure, and that step's error is returned |
| Session.Authenticate | mailer.go:298-312 | CRAM-MD5 and then PLAIN with an empty identity are issued, each only if configured, until the first failure, and that step's error is returned |
| Session.Address | mailer.go:314-320 | MAIL with the sender, then RCPT with the recipient, until the first failure |
| Session.Deliver | mailer.go:321-334 | DATA, the write of the message, the writer close and QUIT, until the first failure |
| Session.Converse | mailer.go:298-335 | authentication, addressing and delivery run as one batch that stops at the first failure |
| Session.Send | mailer.go:251-336 | the server sees what `Expected` prescribes for some message the assembler may produce: the connect steps, and when they succeed the conversation followed by one close; the error returned is the one `Expected` prescribes |
| Session.SendFollowsPlan | mailer.go:278-335 | one Send is one run over its whole plan that stops at the first failure, followed by the close exactly when connecting succeeded |
| Session.FirstFailureEndsSend | mailer.go:278-335 | when plan step k is the first to fail, Send returns that step's error and the server has seen exactly the steps up to k, plus a close when k comes after the connect steps |
| Session.SuccessIffEveryStepSucceeds | mailer.go:278-335 | Send returns no error if and only if every step succeeds, and then the server has seen the whole plan and one close |
| Session.ConnectFailureSendsNoCommand | mailer.go:281-295 | when connecting fails, only connect steps reach the server, the connection is not closed, and the error names the TLS dial, the client or the dial |
| Session.ClosedOnEveryExitAfterConnect | mailer.go:296 | the connection is closed if and only if connecting succeeded; then the close is the last event and happens once |
| Session.AuthCommandsAreConfigured | mailer.go:299-312 | every authentication command carries a mechanism that the configuration holds |
| Session.AuthOnlyInAuthSteps | mailer.go:278-335 | the only authentication commands in the plan are the authentication steps |
| Session.AuthOnlyIfConfigured | mailer.go:299-312 | every mechanism Send authenticates with is one the configuration holds; with no configuration it does not authenticate |
| Session.ConversationStopsInAuth | mailer.go:298-312 | when an authentication step fails, the conversation ends there |
| Session.AuthFailureReadsAsAuth | mailer.go:302-309 | when an authentication step fails, Send returns an Auth error |
| Session.AuthFailureStopsBeforeMail | mailer.go:302-318 | when an authentication step fails, none of MAIL, RCPT, DATA, the write, the writer close or QUIT reaches the server |
| Session.CramMd5BeforePlain | mailer.go:299-312 | with both mechanisms configured and the connection up, CRAM-MD5 is tried right after connecting; PLAIN is tried if and only if CRAM-MD5 succeeded, and then right after it |
| Session.WriterCloseFailureReadsAsQuit | mailer.go:329-333 | when closing the data writer is the first failure, the error is the one a failed QUIT gives ("(*Client) Quit() error. err=" and the cause), QUIT is never sent, and the connection is still closed |
| Session.GeneratedAuthIssuesOneCommand | mailer.go:363-386 | a configuration from GenCRAMMD5Auth or GenPlainAuth leads to exactly one authentication command with its own credentials |

## Left out

- Templates (`templates.go`, `GenBodyFromFiles`, `GenBodyFromString`): they render text through Go's template engine, which is outside this model. A body is taken as already rendered.
- TLS configuration (`GenTlsConfig`, `SetCertFiles`, `SetCertBytes`): certificates and key loading are not modelled. `TlsConfig` stands in for the configuration, and `Send` only tests whether one is present and passes it on.
- The network, the SMTP protocol and the data writer: they are the `Server` object. The outcome of each command is an input through `reply`. The bytes exchanged inside AUTH, MAIL and the other commands are not modelled.
- The address string `host + ":" + strconv.Itoa(port)`: a dial carries the host and the port as a pair instead.
- The clock-seeded pseudo-random generator in `genBoundary`: its 32 draws are an input.
- The error returned by the deferred `c.Close()`: `Send` drops it, and so does the model.
- Nil `Header` or `Body` pointers in `Params`: they make the Go code panic. The model has no nil values for them.
- Session.Server.Perform: the reply is a fixed function of the command. It cannot model a server whose answer to the same command changes within one `Send`. No command occurs twice within one `Send`, so every run of `Send` is still covered.
