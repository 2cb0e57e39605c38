/**
 * The stage renderer: the colour lookup and the five-column checklist of
 * the thread's header message.
 */
module Render {
  import opened Wrappers
  import opened ActionIO
  import opened Colors

  const CompleteEmoji: string := "✅"
  const WaitingEmoji: string := "⏳"
  const FailEmoji: string := "❌"

  /** The checklist's column titles, in display order. */
  const FieldNames: seq<string> := ["Base Tests", "Compile & Build", "End 2 End", "Re-Tag", "Deploy"]

  /** The closed set of pipeline stages the action knows. */
  datatype Stage = Test | Build | EndToEnd | FinalBuild | Deploy | Complete

  datatype Field = Field(name: string, value: string, inline: bool)

  /** A chat embed: the thread's header message, or a status note posted in the thread. */
  datatype Embed =
    | Header(authorUrl: string, authorName: string, fields: seq<Field>, color: nat, description: string)
    | Status(color: nat, description: string)

  const StageNames: set<string> := {"test", "build", "e2e", "final-build", "deploy", "complete"}

  /** Recognises the six stage names; anything else is no stage. */
  function ParseStage(name: string): (s: Option<Stage>)
    ensures s.Some? <==> name in StageNames
  {
    if name == "test" then Some(Test)
    else if name == "build" then Some(Build)
    else if name == "e2e" then Some(EndToEnd)
    else if name == "final-build" then Some(FinalBuild)
    else if name == "deploy" then Some(Deploy)
    else if name == "complete" then Some(Complete)
    else None
  }

  function StageName(s: Stage): (name: string)
    ensures ParseStage(name) == Some(s)
  {
    match s
    case Test => "test"
    case Build => "build"
    case EndToEnd => "e2e"
    case FinalBuild => "final-build"
    case Deploy => "deploy"
    case Complete => "complete"
  }

  /** A parsed stage name is the name of that stage: parsing loses nothing. */
  lemma ParseStageInverse(name: string)
    requires ParseStage(name).Some?
    ensures StageName(ParseStage(name).value) == name
  {
  }

  /** The checklist column of the running stage; `Complete` lies past the last column. */
  function Position(s: Stage): (k: nat)
    ensures k <= |FieldNames|
    ensures k == |FieldNames| <==> s == Complete
  {
    match s
    case Test => 0
    case Build => 1
    case EndToEnd => 2
    case FinalBuild => 3
    case Deploy => 4
    case Complete => 5
  }

  /** The colour each stage is shown in. */
  function Palette(s: Stage): nat
  {
    match s
    case Test => PinkColor
    case Build => CyanColor
    case EndToEnd => YellowColor
    case FinalBuild => DarkBlueColor
    case Deploy => PurpleColor
    case Complete => GreenColor
  }

  /** The colour lookup on the raw STAGE input. */
  function StageColor(name: string): (r: Result<nat, Error>)
    ensures r.Ok? <==> name in StageNames
  {
    match ParseStage(name)
    case Some(s) => Ok(Palette(s))
    case None => Err(UnknownColorStage(name))
  }

  /** The six stage names and their colours; every other name is an error naming it. */
  lemma StageColorTable(name: string)
    ensures StageColor("test") == Ok(PinkColor)
    ensures StageColor("build") == Ok(CyanColor)
    ensures StageColor("e2e") == Ok(YellowColor)
    ensures StageColor("final-build") == Ok(DarkBlueColor)
    ensures StageColor("deploy") == Ok(PurpleColor)
    ensures StageColor("complete") == Ok(GreenColor)
    ensures name !in StageNames ==> StageColor(name) == Err(UnknownColorStage(name))
  {
  }

  /** What column `i` shows while the pipeline is at column `k`. */
  function Marker(k: nat, i: nat, status: string): string
  {
    if i < k then CompleteEmoji else if i == k then status else WaitingEmoji
  }

  /**
   * The header's checklist: five inline columns in fixed order, done before
   * the running stage, its status at it, waiting after it.
   */
  function StageFields(s: Stage, status: string): seq<Field>
  {
    seq(|FieldNames|, i requires 0 <= i < |FieldNames| => Field(FieldNames[i], Marker(Position(s), i, status), true))
  }

  /** The checklist is, stage by stage, the literal table the action sends. */
  lemma StageFieldsTable(status: string)
    ensures StageFields(Test, status) == [
      Field("Base Tests", status, true),
      Field("Compile & Build", WaitingEmoji, true),
      Field("End 2 End", WaitingEmoji, true),
      Field("Re-Tag", WaitingEmoji, true),
      Field("Deploy", WaitingEmoji, true)]
    ensures StageFields(Build, status) == [
      Field("Base Tests", CompleteEmoji, true),
      Field("Compile & Build", status, true),
      Field("End 2 End", WaitingEmoji, true),
      Field("Re-Tag", WaitingEmoji, true),
      Field("Deploy", WaitingEmoji, true)]
    ensures StageFields(EndToEnd, status) == [
      Field("Base Tests", CompleteEmoji, true),
      Field("Compile & Build", CompleteEmoji, true),
      Field("End 2 End", status, true),
      Field("Re-Tag", WaitingEmoji, true),
      Field("Deploy", WaitingEmoji, true)]
    ensures StageFields(FinalBuild, status) == [
      Field("Base Tests", CompleteEmoji, true),
      Field("Compile & Build", CompleteEmoji, true),
      Field("End 2 End", CompleteEmoji, true),
      Field("Re-Tag", status, true),
      Field("Deploy", WaitingEmoji, true)]
    ensures StageFields(Deploy, status) == [
      Field("Base Tests", CompleteEmoji, true),
      Field("Compile & Build", CompleteEmoji, true),
      Field("End 2 End", CompleteEmoji, true),
      Field("Re-Tag", CompleteEmoji, true),
      Field("Deploy", status, true)]
    ensures StageFields(Complete, status) == [
      Field("Base Tests", CompleteEmoji, true),
      Field("Compile & Build", CompleteEmoji, true),
      Field("End 2 End", CompleteEmoji, true),
      Field("Re-Tag", CompleteEmoji, true),
      Field("Deploy", CompleteEmoji, true)]
  {
  }

  /**
   * A status text that is neither marker appears in exactly the running
   * stage's column, so "complete" shows it nowhere.
   */
  lemma StatusOnlyInCurrentColumn(s: Stage, status: string)
    requires status != CompleteEmoji && status != WaitingEmoji
    ensures forall i :: 0 <= i < |FieldNames| ==>
      (StageFields(s, status)[i].value == status <==> i == Position(s))
    ensures s == Complete ==> forall i :: 0 <= i < |FieldNames| ==> StageFields(s, status)[i].value == CompleteEmoji
  {
  }

  /** The status text wrapped in fail markers, "❌ status ❌". */
  function FailMarked(status: string): (r: string)
    ensures |r| == |status| + 4
    ensures r[..2] == FailEmoji + " " && r[2..|r| - 2] == status && r[|r| - 2..] == " " + FailEmoji
  {
    FailEmoji + " " + status + " " + FailEmoji
  }

  /**
   * The thread's header embed for the STAGE and STAGE_STATUS inputs. The run
   * URL is needed before the stage is looked at, so a missing run context
   * wins over an unknown stage.
   */
  function HeaderEmbed(ctx: Option<RunContext>, stage: string, status: string, fail: bool): Result<Embed, Error>
  {
    match ctx
    case None => Err(ContextUnavailable)
    case Some(c) =>
      var current := if fail then FailMarked(status) else status;
      match ParseStage(stage)
      case None => Err(UnknownFieldsStage(stage))
      case Some(s) =>
        var color := if fail then RedColor else Palette(s);
        Ok(Header(c.runUrl, c.embedTitle, StageFields(s, current), color, ""))
  }

  /**
   * The header carries the run link and title and the stage's checklist; an
   * unknown stage or a missing run context is an error. With `fail` the
   * running stage's status is fail-marked and the header is red; without it
   * the header has the colour the colour lookup gives the stage.
   */
  lemma HeaderEmbedSpec(ctx: Option<RunContext>, stage: string, status: string, fail: bool)
    ensures ctx.None? ==> HeaderEmbed(ctx, stage, status, fail) == Err(ContextUnavailable)
    ensures ctx.Some? && stage !in StageNames ==> HeaderEmbed(ctx, stage, status, fail) == Err(UnknownFieldsStage(stage))
    ensures ctx.Some? && stage in StageNames ==>
      var h := HeaderEmbed(ctx, stage, status, fail);
      h.Ok? && h.value.Header? && h.value.description == "" &&
      h.value.authorUrl == ctx.value.runUrl && h.value.authorName == ctx.value.embedTitle &&
      h.value.fields == StageFields(ParseStage(stage).value, if fail then FailMarked(status) else status) &&
      (fail ==> h.value.color == RedColor) &&
      (!fail ==> StageColor(stage) == Ok(h.value.color))
  {
  }
}
