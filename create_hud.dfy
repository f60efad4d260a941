/**
 * The lobby-settings HUD (`src/components/Engine/createHud.js`): sixteen
 * lines of text built from the settings record, drawn one under the other
 * on a canvas, or a ready image used as the texture instead.
 */
module CreateHud {
  import opened Js

  /** A lobby settings record, as a plain object. */
  type Settings = map<string, Value>

  /** How a setting is printed after its label. */
  datatype Render = Plain | Seconds | Times | OnOff

  /** One HUD line: its label, the settings key it reads, and how the value is printed. */
  datatype Field = Field(caption: string, key: string, render: Render)

  /**
   * The HUD lines in display order. "Voting Time" reads the all-lower-case
   * key `votingtime`, unlike every other camel-case key.
   */
  const HudFields: seq<Field> := [
    Field("Map", "map", Plain),
    Field("Impostors", "impostors", Plain),
    Field("Confirm Ejects", "confirmEjects", OnOff),
    Field("Emergency Meetings", "emergencyMeetings", Plain),
    Field("Emergency Cooldown", "emergencyCooldown", Seconds),
    Field("Discussion Time", "discussionTime", Seconds),
    Field("Voting Time", "votingtime", Seconds),
    Field("Player Speed", "playerSpeed", Times),
    Field("Crewmate Vision", "crewmateVision", Times),
    Field("Impostor Vision", "impostorVision", Times),
    Field("Kill Cooldown", "killCooldown", Seconds),
    Field("Kill Distance", "killDistance", Plain),
    Field("Visual Tasks", "visualTasks", OnOff),
    Field("Common Tasks", "commonTasks", Plain),
    Field("Long Tasks", "longTasks", Plain),
    Field("Short Tasks", "shortTasks", Plain)
  ]

  /** `on`/`off` by truthiness. */
  function OnOffText(v: Value): string
  {
    if Truthy(v) then "on" else "off"
  }

  /** A line `caption: text`. */
  function Labeled(caption: string, text: string): string {
    caption + ": " + text
  }

  /** How the value of a field is printed after its caption. */
  function Shown(render: Render, v: Value): string {
    match render
    case Plain => ToString(v)
    case Seconds => ToString(v) + "s"
    case Times => ToString(v) + "x"
    case OnOff => OnOffText(v)
  }

  /** The reference rendering of one line from the field table. */
  function FieldLine(f: Field, settings: Settings): string {
    Labeled(f.caption, Shown(f.render, Get(settings, f.key)))
  }

  /**
   * `createHudText(settings)`, written as the source's array literal; the
   * lemmas below tie every line to the field table above.
   */
  function HudText(settings: Settings): (lines: seq<string>)
    ensures |lines| == |HudFields| == 16
  {
    var s := settings;
    [
      Labeled("Map", ToString(Get(s, "map"))),
      Labeled("Impostors", ToString(Get(s, "impostors"))),
      Labeled("Confirm Ejects", if Truthy(Get(s, "confirmEjects")) then "on" else "off"),
      Labeled("Emergency Meetings", ToString(Get(s, "emergencyMeetings"))),
      Labeled("Emergency Cooldown", ToString(Get(s, "emergencyCooldown")) + "s"),
      Labeled("Discussion Time", ToString(Get(s, "discussionTime")) + "s"),
      Labeled("Voting Time", ToString(Get(s, "votingtime")) + "s"),
      Labeled("Player Speed", ToString(Get(s, "playerSpeed")) + "x"),
      Labeled("Crewmate Vision", ToString(Get(s, "crewmateVision")) + "x"),
      Labeled("Impostor Vision", ToString(Get(s, "impostorVision")) + "x"),
      Labeled("Kill Cooldown", ToString(Get(s, "killCooldown")) + "s"),
      Labeled("Kill Distance", ToString(Get(s, "killDistance"))),
      Labeled("Visual Tasks", if Truthy(Get(s, "visualTasks")) then "on" else "off"),
      Labeled("Common Tasks", ToString(Get(s, "commonTasks"))),
      Labeled("Long Tasks", ToString(Get(s, "longTasks"))),
      Labeled("Short Tasks", ToString(Get(s, "shortTasks")))
    ]
  }

  /** Line i of `createHudText` is the rendering of entry i of the field table. */
  lemma HudTextMatchesTable(settings: Settings, i: nat)
    requires i < 16
    ensures HudText(settings)[i] == FieldLine(HudFields[i], settings)
  {
    var lines := HudText(settings);
    if i < 8 {
      if i < 4 {
        if i == 0 {} else if i == 1 {} else if i == 2 {} else {}
      } else {
        if i == 4 {} else if i == 5 {} else if i == 6 {} else {}
      }
    } else {
      if i < 12 {
        if i == 8 {} else if i == 9 {} else if i == 10 {} else {}
      } else {
        if i == 12 {} else if i == 13 {} else if i == 14 {} else {}
      }
    }
  }

  /** Line i starts with its caption, in the fixed order of the table. */
  lemma HudTextLabels(settings: Settings, i: nat)
    requires i < 16
    ensures var line := HudText(settings)[i];
            var prefix := HudFields[i].caption + ": ";
            |prefix| <= |line| && line[..|prefix|] == prefix
  {
    HudTextMatchesTable(settings, i);
    var f := HudFields[i];
    var prefix := f.caption + ": ";
    assert HudText(settings)[i] == prefix + Shown(f.render, Get(settings, f.key));
  }

  /** The two switches depend only on truthiness: `Confirm Ejects` is line 2, `Visual Tasks` line 12. */
  lemma SwitchLines(settings: Settings)
    ensures HudText(settings)[2] ==
      (if Truthy(Get(settings, "confirmEjects")) then "Confirm Ejects: on" else "Confirm Ejects: off")
    ensures HudText(settings)[12] ==
      (if Truthy(Get(settings, "visualTasks")) then "Visual Tasks: on" else "Visual Tasks: off")
  {
  }

  /** A record that spells the key `votingTime` still shows `undefineds`. */
  lemma VotingTimeReadsLowerCaseKey(settings: Settings)
    requires "votingtime" !in settings
    ensures HudText(settings)[6] == "Voting Time: undefineds"
  {
  }

  /** One `context.fillText(text, x, y)`. */
  datatype TextDraw = TextDraw(text: string, x: real, y: real)

  /** What a canvas holds when it is wrapped in a texture. */
  datatype CanvasState = CanvasState(
    width: int, height: int, fillStyle: string, textAlign: string, font: string, drawn: seq<TextDraw>)

  /** A canvas and its 2D context, whose style fields are set before drawing. */
  class Canvas {
    const width: int
    const height: int
    var fillStyle: string
    var textAlign: string
    var font: string
    var drawn: seq<TextDraw>

    /** `document.createElement('canvas')` with its size set; the context defaults are black, `start`, `10px sans-serif`. */
    constructor (w: int, h: int)
      ensures width == w && height == h && drawn == []
      ensures fillStyle == "#000000" && textAlign == "start" && font == "10px sans-serif"
    {
      width, height := w, h;
      fillStyle, textAlign, font := "#000000", "start", "10px sans-serif";
      drawn := [];
    }

    method FillText(text: string, x: real, y: real)
      modifies this
      ensures drawn == old(drawn) + [TextDraw(text, x, y)]
      ensures fillStyle == old(fillStyle) && textAlign == old(textAlign) && font == old(font)
    {
      drawn := drawn + [TextDraw(text, x, y)];
    }

    function State(): CanvasState
      reads this
    {
      CanvasState(width, height, fillStyle, textAlign, font, drawn)
    }
  }

  /** The baseline of HUD line `i`. */
  function LineY(i: nat): real {
    40.0 + (i as real) * 28.8
  }

  /** Where the lines go: line i at x = 16 and y = LineY(i). */
  function LineDraws(lines: seq<string>): (ops: seq<TextDraw>)
  {
    seq(|lines|, i requires 0 <= i < |lines| => TextDraw(lines[i], 16.0, LineY(i)))
  }

  /** Drawing one more line appends its draw to the layout of the lines before it. */
  lemma LineDrawsSnoc(lines: seq<string>, k: nat)
    requires k < |lines|
    ensures LineDraws(lines[..k + 1]) == LineDraws(lines[..k]) + [TextDraw(lines[k], 16.0, LineY(k))]
  {
  }

  /** The settings canvas that `createTextTexture` draws. */
  function HudCanvas(settings: Settings, width: int, height: int): CanvasState {
    CanvasState(width, height, "#FFFFFF", "start", "24px Arial", LineDraws(HudText(settings)))
  }

  /** Every later line lies strictly lower on the canvas. */
  lemma LinesDescend(settings: Settings, width: int, height: int)
    ensures var ops := HudCanvas(settings, width, height).drawn;
            |ops| == 16 &&
            forall i, j :: 0 <= i < j < |ops| ==> ops[i].x == ops[j].x == 16.0 && ops[i].y < ops[j].y
  {
  }

  /** A texture: a canvas snapshot, or an image given by the caller. */
  datatype Texture = TextTexture(canvas: CanvasState) | Picture(image: nat)

  /** `createTextTexture(text, width, height)`: draw the sixteen lines in a `forEach`. */
  method CreateTextTexture(settings: Settings, width: int, height: int) returns (t: Texture)
    ensures t == TextTexture(HudCanvas(settings, width, height))
    ensures |t.canvas.drawn| == 16
    ensures forall i :: 0 <= i < 16 ==>
      t.canvas.drawn[i] == TextDraw(HudText(settings)[i], 16.0, 40.0 + (i as real) * 28.8)
  {
    var canvas := new Canvas(width, height);
    canvas.fillStyle := "#FFFFFF";
    canvas.textAlign := "start";
    canvas.font := "24px Arial";
    var lines := HudText(settings);
    for index := 0 to |lines|
      invariant canvas.width == width && canvas.height == height
      invariant canvas.fillStyle == "#FFFFFF" && canvas.textAlign == "start" && canvas.font == "24px Arial"
      invariant canvas.drawn == LineDraws(lines[..index])
    {
      LineDrawsSnoc(lines, index);
      canvas.FillText(lines[index], 16.0, LineY(index));
    }
    assert lines[..|lines|] == lines;
    t := TextTexture(canvas.State());
  }

  /** The argument object of `createHud`: `undefined` text is `None`, and so is a missing image. */
  datatype HudArgs = HudArgs(text: Option<Settings>, image: Option<nat>, width: int, height: int)

  /** A transparent plane of the given size carrying the texture. */
  datatype HudMesh = HudMesh(texture: Texture, width: int, height: int, transparent: bool)

  /** `createHud` returns a mesh, or throws when it has neither image nor text. */
  datatype Built = Mesh(mesh: HudMesh) | Threw

  /** The reference result of `createHud(args)`. */
  function HudFor(args: HudArgs): (r: Built)
    ensures args.image.Some? ==> r.Mesh? && r.mesh.texture == Picture(args.image.value)
    ensures args.image.None? && args.text.Some? ==>
      r.Mesh? && r.mesh.texture == TextTexture(HudCanvas(args.text.value, args.width, args.height))
    ensures args.image.None? && args.text.None? ==> r.Threw?
    ensures r.Mesh? ==> r.mesh.width == args.width && r.mesh.height == args.height && r.mesh.transparent
  {
    match args.image
    case Some(img) => Mesh(HudMesh(Picture(img), args.width, args.height, true))
    case None =>
      match args.text
      case None => Threw
      case Some(s) => Mesh(HudMesh(TextTexture(HudCanvas(s, args.width, args.height)), args.width, args.height, true))
  }

  /**
   * `createHud({ text, image, width, height })`: the image is used as the
   * texture when given; only otherwise is the text drawn, and reading a
   * field of `undefined` text throws.
   */
  method CreateHud(args: HudArgs) returns (r: Built)
    ensures r == HudFor(args)
  {
    var texture: Texture;
    if args.image.Some? {
      texture := Picture(args.image.value);
    } else if args.text.None? {
      return Threw;
    } else {
      texture := CreateTextTexture(args.text.value, args.width, args.height);
    }
    r := Mesh(HudMesh(texture, args.width, args.height, true));
  }
}
