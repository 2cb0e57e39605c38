# discord-action: a verified model of its stage renderer, flow selection and call sequences

discord-action is a GitHub Action that posts CI pipeline status to a Discord
channel. Each pipeline stage calls it once. The first call posts a header
message and opens a thread on it. Later calls rewrite that header and post
status notes into the thread. The header is an embed. It carries a
five-column checklist (Base Tests, Compile & Build, End 2 End, Re-Tag,
Deploy) and a colour that depends on the stage.

This Dafny project models the decision core of `main.go`:

- `colors.dfy` (module `Colors`): the colour constants and the shifted sums
  `main.go` writes them as.
- `render.dfy` (module `Render`): the six stage names, the colour lookup
  (`getStageColor`), the checklist table and the header embed
  (`getThreadHeaderEmbedContent`), including the `fail` flag.
- `dispatch.dfy` (module `Dispatch`): the required-input checks and the
  choice between the four flows in `main`.
- `trace.dfy` (module `Trace`): what an invocation does, as a trace. Each
  call into the Discord client is recorded with its reply. Each action
  output written is recorded too. Replies come from an oracle: a sequence of
  outcomes used in call order. A call with no reply left fails.
- `paths.dfy` (module `Paths`): the four flows (`startThread`,
  `updateThread`, `reportStageError`, `reportCanceled`) and `main`, written
  as functions from inputs, run context and oracle to an outcome. The
  lemmas here state what the flows promise.
- `runner.dfy` (module `Runner`): class `Action`. Its methods make the calls
  one at a time and return at the first failure. Each method is proved equal
  to the matching function in `Paths`. `Valid()` says that every recorded
  call used up exactly one oracle reply.

The inputs (`DISCORD_BOT_TOKEN`, `DISCORD_CHANNEL`, `STAGE`, ...) are an
immutable record, `ActionIO.Inputs`. An unset input is the empty string.
The GitHub run context (`gh.Context()`) is an `Option<RunContext>`. `None`
means the context could not be read. `Some` carries the run URL, the embed
title and the thread title as opaque strings.

## Model

| member | source | states |
|---|---|---|
| Colors.ColorsFromShifts | main.go:16-39 | every colour constant equals its `r<<16 + g<<8 + b<<0` sum and has exactly the red, green and blue channels of the hex value in its comment |
| Render.ParseStage | main.go:343-400 | a stage name is recognised exactly when it is one of test, build, e2e, final-build, deploy, complete |
| Render.StageName | main.go:343-397 | parsing the name of any stage gives that stage back |
| Render.ParseStageInverse | main.go:343-397 | a recognised name is the name of the stage it parses to |
| Render.Position | main.go:343-397 | the running stage's checklist column is one of the five columns, or past the last one exactly for "complete" |
| Render.StageColor | main.go:153-175 | the colour lookup succeeds exactly for the six stage names |
| Render.StageColorTable | main.go:158-173 | test, build, e2e, final-build, deploy and complete give Pink, Cyan, Yellow, DarkBlue, Purple and Green; any other name is an "unknown color stage" error naming it |
| Render.StageFieldsTable | main.go:343-397 | for every stage the checklist is exactly the source's five-entry literal table: fixed column names and order, all inline, done before the running stage, its status at it, waiting after it, all done for "complete" |
| Render.StatusOnlyInCurrentColumn | main.go:344-397 | a status text that is neither marker shows in the running stage's column and nowhere else; "complete" shows all five columns done |
| Render.FailMarked | main.go:338-340 | the fail-marked status is the status with "❌ " before it and " ❌" after it |
| Render.HeaderEmbedSpec | main.go:327-424 | no run context is an error before the stage is looked at; an unknown stage is an "unknown fields stage" error; otherwise the header carries run URL, title and the stage's checklist; with `fail` the current status is fail-marked and the colour is red, without it the colour is the one the colour lookup gives |
| Dispatch.MissingRequired | main.go:49-63 | the run proceeds only if token, channel and stage are all set; otherwise the error names the first empty one in that order |
| Dispatch.SelectPath | main.go:77-90 | a thread ID without a message ID, or the reverse, is an error; no IDs selects Start; with both, a stage error selects ReportError even when a cancel message is set, else a cancel message selects ReportCanceled, else Update |
| Paths.StageHeader | main.go:336-397 | the header a non-failing flow sends has the colour the colour lookup gives the stage |
| Paths.StartRequests | main.go:98-151 | Start sends the header to the channel, opens a thread on the new message, posts the status in that colour into the new thread, then writes the message and thread IDs; it stops at the first failed call with that step's error |
| Paths.UpdateRequests | main.go:177-215 | Update edits the top message to the stage's header, then posts the long status in the stage's colour into the thread; it stops at the first failed call |
| Paths.ReportErrorRequests | main.go:216-255 | ReportError edits the top message to a red header whose description is "❌ error ❌" and whose current status is fail-marked, then posts the long status in red into the thread with the ping role as content |
| Paths.ReportCanceledRequests | main.go:257-291 | ReportCanceled edits the top message to a grey header whose description is the cancel message, then posts the long status in grey into the thread |
| Paths.RenderFailureMakesNoCall | main.go:98-109 | an unknown stage or a missing run context ends every flow before its first call; Start and Update report the colour lookup's error, the two reports the header's |
| Paths.PathFailFast | main.go:111-145 | in every flow the n-th call gets the n-th reply, and a failed call is the last event and makes the flow fail |
| Paths.PathSucceeds | main.go:98-291 | a flow succeeds exactly when its header renders and all of its calls (three for Start, two otherwise) succeed |
| Paths.MissingInputCreatesNoClient | main.go:49-70 | an empty token, channel or stage ends the run with a missing-input error before the client is created |
| Paths.InconsistentIdsMakeNoRemoteCall | main.go:72-80 | with only one of thread ID and message ID set, the run fails and makes no remote call |
| Paths.RunIsSelectedPath | main.go:82-90 | once the client exists and the IDs are consistent, the run is the client creation followed by the selected flow and nothing else |
| Paths.RunFailFast | main.go:65-94 | the whole run gives each call the next reply, and its first failed call ends it with an error |
| Paths.RunSucceeds | main.go:46-96 | a run succeeds exactly when the required inputs are set, the IDs are consistent, the header renders and every call it makes succeeds |
| Paths.StartOutputs | main.go:143-150 | a Start that succeeds writes DISCORD_MESSAGE_ID then DISCORD_THREAD_ID with the IDs the calls returned; a Start that fails writes nothing |
| Paths.PathOutputs | main.go:147-148 | no flow except a successful Start writes an output |
| Paths.OutputsOnlyOnStartSuccess | main.go:82-96 | a run writes outputs exactly when it selected Start and fully succeeded, and then writes the top message's ID and the thread's ID |
| Runner.Action.Invoke | main.go:111-116 | one client call appends itself and its reply to the trace and uses up one reply |
| Runner.Action.StartThread | main.go:98-151 | the method's trace and error are those of the Start flow |
| Runner.Action.EditThenPost | main.go:191-212 | the edit-then-post sequence stops at the first failure |
| Runner.Action.UpdateThread | main.go:177-215 | the method's trace and error are those of the Update flow |
| Runner.Action.ReportStageError | main.go:216-255 | the method's trace and error are those of the ReportError flow |
| Runner.Action.ReportCanceled | main.go:257-291 | the method's trace and error are those of the ReportCanceled flow |
| Runner.Action.RunPath | main.go:82-90 | runs exactly the flow it is given |
| Runner.Action.RunWithClient | main.go:65-94 | creates the client, refuses inconsistent IDs and runs the selected flow, as the run's specification says |
| Runner.Action.Run | main.go:46-96 | one invocation's trace and error are those of the run's specification |

## Left out

- The Discord client (`discordgo`) and its REST calls are not modelled. Each call is a trace event whose reply (failure, or success with an opaque ID) comes from an oracle.
- `discord.New` is modelled as one more call that uses up a reply (`NewSession`). It is not a remote call, so the "no remote call" property ignores it.
- `gh.GetInput`, `gh.SetOutput` and `gh.Fatalf` are replaced by the `Inputs` record, `SetOutput` trace events and the returned error.
- `getRunURL`, `getEmbedTitle` and `getThreadTitle` build strings from the CI run context with `fmt.Sprintf`. The model treats those strings as opaque. The three helpers each call `gh.Context()`; the model reads one context, so they all succeed or all fail together.
- The wrapping messages that `errors.Wrap` adds are left out. An error keeps its kind (missing input, unknown stage, and so on), and a failed call names its step.
- The embed timestamp (`time.Now()`), the embed type, the empty footer and the thread's auto-archive duration are left out. They are a clock value and fixed cosmetics.
- `orangeColor` is left out. It is defined but never used.
- The source changes the header embed's description and colour in place. The model builds an updated copy instead. The embed is a fresh local value, so no aliasing is lost.
- Render.StageFields computes the checklist by rule rather than as six literal tables. `StageFieldsTable` proves that it equals each of the source's tables.
- The checklist does not always have exactly one column that is neither done nor waiting. For "complete" all five columns are done, and `main.go` follows that; the model follows the code.
- In ReportCanceled the header is rendered as failing (`getThreadHeaderEmbedContent(true)`) before it is turned grey. The running stage's status is therefore fail-marked under a grey header. The model keeps this as written.
