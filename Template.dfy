/**
  The template builder `createSystemPrompt(sceneCount, scenes)` of
  backend/routes/generate.js: one template literal whose fixed Korean text is
  kept here line by line, with three interpolation points — the scene count,
  the SHOT lines joined with line feeds, and the first scene's duration as the
  end of the closing time window.
*/
module Template {
  import opened Wrappers
  import opened Text

  /** One element of the request's `scenes` array. */
  datatype Scene = Scene(number: int, duration: int)

  /** The lines before the scene-count line. */
  const IntroLines: seq<string> := [
    "당신은 Sora 2 영상 제작을 위한 전문 프롬프트 작성자입니다.",
    "",
    "사용자가 원하는 영상 내용을 듣고, 아래 형식에 맞춰 상세하고 전문적인 영상 프롬프트를 생성해야 합니다.",
    "",
    "**프롬프트 작성 규칙:**",
    ""
  ]

  const CountPrefix: string := "1. 총 "
  const CountSuffix: string := "개의 장면(SHOT)을 생성해야 합니다."
  const ShotsHeading: string := "2. 각 장면의 구성:"
  const ShotPrefix: string := "   - SHOT"
  const ShotSeparator: string := ": "
  const ShotSuffix: string := "초"

  /** The lines between the SHOT lines and the closing-window line. */
  const FormatLines: seq<string> := [
    "",
    "3. 각 SHOT의 형식:",
    "   - 장면 제목: \"SHOT{번호} — 장면: [위치 및 분위기 설명]\"",
    "   - 시간대별 상세 묘사:",
    "     * 0–0.2s: 화면 전환 효과",
    "     * 0.2–5s: 초반 장면 설정 및 주요 액션",
    "     * 5–10s: 중반 전개 및 클라이맥스 빌드업"
  ]

  const WindowPrefix: string := "     * 10–"
  const WindowSuffix: string := "s: 마무리 및 다음 장면 연결"

  /** The lines after the closing-window line. */
  const TrailerLines: seq<string> := [
    "",
    "4. 각 시간대마다 포함할 요소:",
    "   - 카메라 앵글 (와이드샷, 미디엄샷, 클로즈업 등)",
    "   - 캐릭터의 동작과 표정",
    "   - 대사 (있는 경우, 큰따옴표로 표시)",
    "   - 시각적 효과 (빛, 그림자, 모션 블러, 파티클 등)",
    "   - 분위기와 감정",
    "   - 카메라 움직임 (팬, 틸트, 줌, 트래킹 등)",
    "",
    "5. 작성 스타일:",
    "   - 영화적이고 전문적인 어조",
    "   - 구체적이고 시각적인 묘사",
    "   - 시간의 흐름에 따른 자연스러운 연결",
    "   - 각 장면 간의 스토리 연속성 유지",
    "",
    "6. 예시 참고 (형식만 참고, 내용은 사용자 요청에 맞게):",
    "   \"SHOT1 — 장면: 안개 낀 폐허의 산촌 입구, 달빛이 낮게 비추는 밤",
    "",
    "   0–0.2s:",
    "   빠른 모션 블러 속에서 달빛이 번져 화면이 서서히 드러난다.",
    "",
    "   0.2–5s:",
    "   와이드샷으로 흐릿한 골목과 부서진 한옥 지붕이 보이고, **강무(한국 남성 무사, 30대, 검은 한복·붉은 허리끈·차가운 눈빛)**가 서서히 칼집에 손을 올린다...\"",
    "",
    "**중요:**",
    "- 반드시 위 형식을 정확히 따라야 합니다.",
    "- 각 장면의 시간은 지정된 duration에 맞춰야 합니다.",
    "- 모든 묘사는 한국어로 작성합니다.",
    "- 캐릭터, 배경, 액션을 구체적으로 묘사합니다.",
    "- 영상의 전체적인 스토리 흐름을 고려합니다."
  ]

  /**
    The fixed text of the template, in three blocks of lines: before the
    scene-count line, between the SHOT lines and the closing-window line, and
    after the closing-window line. The lemmas below hold for any such blocks.
  */
  datatype FixedText = FixedText(intro: seq<string>, format: seq<string>, trailer: seq<string>)

  const Fixed: FixedText := FixedText(IntroLines, FormatLines, TrailerLines)

  /** What V8 throws when `scenes[0].duration` is read from an empty array. */
  const EmptyScenesError: string := "Cannot read properties of undefined (reading 'duration')"

  function CountLine(sceneCount: int): string {
    CountPrefix + ShowInt(sceneCount) + CountSuffix
  }

  /** `   - SHOT{number}: {duration}초` for one scene. */
  function ShotLine(scene: Scene): string {
    ShotPrefix + ShowInt(scene.number) + ShotSeparator + ShowInt(scene.duration) + ShotSuffix
  }

  /** `scenes.map(...)`: one SHOT line per scene, in the order of the scenes. */
  function ShotLines(scenes: seq<Scene>): (lines: seq<string>)
    ensures |lines| == |scenes|
    ensures forall k :: 0 <= k < |scenes| ==> lines[k] == ShotLine(scenes[k])
  {
    seq(|scenes|, k requires 0 <= k < |scenes| => ShotLine(scenes[k]))
  }

  function ClosingWindowLine(end: int): string {
    WindowPrefix + ShowInt(end) + WindowSuffix
  }

  /**
    The template literal over given fixed blocks. It is evaluated left to
    right, so with an empty `scenes` the SHOT section is empty and reading
    `scenes[0].duration` then throws.
  */
  function Render(text: FixedText, sceneCount: int, scenes: seq<Scene>): (r: Result<string, string>)
    ensures r.Failure? <==> |scenes| == 0
    ensures r.Failure? ==> r.error == EmptyScenesError
  {
    var shots := Join(ShotLines(scenes));
    if |scenes| == 0 then Failure(EmptyScenesError)
    else Success(
      Join(text.intro) + "\n" + (CountLine(sceneCount) + "\n" + (ShotsHeading + "\n" + (shots + "\n"
      + (Join(text.format) + "\n" + (ClosingWindowLine(scenes[0].duration) + "\n" + Join(text.trailer)))))))
  }

  /** createSystemPrompt(sceneCount, scenes). */
  function SystemPrompt(sceneCount: int, scenes: seq<Scene>): (r: Result<string, string>)
    ensures r.Failure? <==> |scenes| == 0
    ensures r.Failure? ==> r.error == EmptyScenesError
  {
    Render(Fixed, sceneCount, scenes)
  }

  /** The line views of the three fixed blocks: they do not depend on the request. */
  function IntroView(text: FixedText): seq<string> { Split(Join(text.intro)) }
  function FormatView(text: FixedText): seq<string> { Split(Join(text.format)) }
  function TrailerView(text: FixedText): seq<string> { Split(Join(text.trailer)) }

  /** The lines before the SHOT lines: the introduction, the scene-count line and the heading. */
  function PromptHead(text: FixedText, sceneCount: int): seq<string> {
    IntroView(text) + [CountLine(sceneCount)] + [ShotsHeading]
  }

  /** The lines after the SHOT lines: the format block, the closing-window line and the trailer. */
  function PromptTail(text: FixedText, end: int): seq<string> {
    FormatView(text) + [ClosingWindowLine(end)] + TrailerView(text)
  }

  /** Index of the scene-count line in the line view of the prompt. */
  function CountIndex(text: FixedText): nat {
    |IntroView(text)|
  }

  /** Index of the first SHOT line in the line view of the prompt. */
  function ShotsStart(text: FixedText): nat {
    CountIndex(text) + 2
  }

  /** Index of the closing-window line when there are n scenes. */
  function ClosingIndex(text: FixedText, n: nat): nat {
    ShotsStart(text) + n + |FormatView(text)|
  }

  /** Number of lines of the prompt besides the SHOT lines. */
  function FixedLineCount(text: FixedText): nat {
    |IntroView(text)| + 2 + |FormatView(text)| + 1 + |TrailerView(text)|
  }

  lemma InterpolatedLinesHaveNoLineFeed(sceneCount: int, scene: Scene, end: int)
    ensures '\n' !in CountLine(sceneCount)
    ensures '\n' !in ShotsHeading
    ensures '\n' !in ShotLine(scene)
    ensures '\n' !in ClosingWindowLine(end)
  {
  }

  /** Line view of text laid out as SystemPrompt lays out its parts. */
  lemma SplitSections(intro: string, count: string, heading: string, shots: seq<string>,
                      format: string, closing: string, trailer: string)
    requires '\n' !in count && '\n' !in heading && '\n' !in closing
    requires |shots| > 0 && forall k :: 0 <= k < |shots| ==> '\n' !in shots[k]
    ensures Split(intro + "\n" + (count + "\n" + (heading + "\n" + (Join(shots) + "\n"
              + (format + "\n" + (closing + "\n" + trailer))))))
         == Split(intro) + ([count] + ([heading] + (shots + (Split(format) + ([closing] + Split(trailer))))))
  {
    var tail3 := closing + "\n" + trailer;
    var tail2 := format + "\n" + tail3;
    var tail1 := Join(shots) + "\n" + tail2;
    var tail0 := heading + "\n" + tail1;
    SplitLine(closing, trailer);
    SplitAppend(format, tail3);
    SplitLines(shots, tail2);
    SplitLine(heading, tail1);
    SplitLine(count, tail0);
    SplitAppend(intro, count + "\n" + tail0);
  }

  lemma Reassociate<T>(a: seq<T>, b: seq<T>, c: seq<T>, d: seq<T>, e: seq<T>, f: seq<T>, g: seq<T>)
    ensures a + (b + (c + (d + (e + (f + g))))) == (a + b + c) + d + (e + f + g)
  {
  }

  /**
    The line view of the prompt: the fixed introduction, the scene-count line,
    the heading, exactly one SHOT line per scene in the order of the scenes
    (joined without a trailing line feed), the fixed format block, the
    closing-window line ending at the first scene's duration, and the fixed trailer.
  */
  lemma PromptLines(text: FixedText, sceneCount: int, scenes: seq<Scene>)
    requires |scenes| > 0
    ensures Render(text, sceneCount, scenes).Success?
    ensures Split(Render(text, sceneCount, scenes).value)
         == PromptHead(text, sceneCount) + ShotLines(scenes) + PromptTail(text, scenes[0].duration)
  {
    var shots := ShotLines(scenes);
    forall k | 0 <= k < |shots| ensures '\n' !in shots[k] {
      InterpolatedLinesHaveNoLineFeed(sceneCount, scenes[k], 0);
    }
    InterpolatedLinesHaveNoLineFeed(sceneCount, scenes[0], scenes[0].duration);
    SplitSections(Join(text.intro), CountLine(sceneCount), ShotsHeading, shots,
                  Join(text.format), ClosingWindowLine(scenes[0].duration), Join(text.trailer));
    Reassociate(IntroView(text), [CountLine(sceneCount)], [ShotsHeading], shots,
                FormatView(text), [ClosingWindowLine(scenes[0].duration)], TrailerView(text));
  }

  /** Reads a SHOT line back into the scene it was rendered from. */
  function ReadShotLine(line: string): Option<Scene> {
    match StripAffixes(ShotPrefix, ShotSuffix, line)
    case None => None
    case Some(middle) =>
      match SplitAtFirst(middle, ':')
      case None => None
      case Some((number, rest)) =>
        if |rest| == 0 || rest[0] != ' ' then None
        else match (ReadInt(number), ReadInt(rest[1..]))
          case (Some(n), Some(d)) => Some(Scene(n, d))
          case _ => None
  }

  /** A SHOT line carries its scene's number and duration, and nothing is lost. */
  lemma ReadShotLineOf(scene: Scene)
    ensures ReadShotLine(ShotLine(scene)) == Some(scene)
  {
    var number, duration := ShowInt(scene.number), ShowInt(scene.duration);
    var rest := " " + duration;
    var middle := number + [':'] + rest;
    assert ShotLine(scene) == ShotPrefix + middle + ShotSuffix;
    StripAffixesOf(ShotPrefix, middle, ShotSuffix);
    SplitAtFirstOf(number, ':', rest);
    assert rest[1..] == duration;
    ReadShowInt(scene.number);
    ReadShowInt(scene.duration);
  }

  function ReadCountLine(line: string): Option<int> {
    match StripAffixes(CountPrefix, CountSuffix, line)
    case None => None
    case Some(middle) => ReadInt(middle)
  }

  lemma ReadCountLineOf(sceneCount: int)
    ensures ReadCountLine(CountLine(sceneCount)) == Some(sceneCount)
  {
    StripAffixesOf(CountPrefix, ShowInt(sceneCount), CountSuffix);
    ReadShowInt(sceneCount);
  }

  function ReadClosingWindowLine(line: string): Option<int> {
    match StripAffixes(WindowPrefix, WindowSuffix, line)
    case None => None
    case Some(middle) => ReadInt(middle)
  }

  lemma ReadClosingWindowLineOf(end: int)
    ensures ReadClosingWindowLine(ClosingWindowLine(end)) == Some(end)
  {
    StripAffixesOf(WindowPrefix, ShowInt(end), WindowSuffix);
    ReadShowInt(end);
  }

  /**
    The prompt has one line per scene on top of a fixed number of lines, and
    its k-th SHOT line reads back as the k-th scene: same number, same
    duration, same order.
  */
  lemma PromptShotLines(text: FixedText, sceneCount: int, scenes: seq<Scene>)
    requires |scenes| > 0
    ensures Render(text, sceneCount, scenes).Success?
    ensures |Split(Render(text, sceneCount, scenes).value)| == FixedLineCount(text) + |scenes|
    ensures forall k :: 0 <= k < |scenes| ==>
              ReadShotLine(Split(Render(text, sceneCount, scenes).value)[ShotsStart(text) + k]) == Some(scenes[k])
  {
    PromptLines(text, sceneCount, scenes);
    var head, shots, tail := PromptHead(text, sceneCount), ShotLines(scenes), PromptTail(text, scenes[0].duration);
    var lines := Split(Render(text, sceneCount, scenes).value);
    assert lines == head + shots + tail;
    forall k | 0 <= k < |scenes|
      ensures ReadShotLine(lines[ShotsStart(text) + k]) == Some(scenes[k])
    {
      Within(head, shots, tail, k);
      ReadShotLineOf(scenes[k]);
    }
  }

  /** The scene-count line states `sceneCount` verbatim, whatever the number of scenes. */
  lemma PromptCountLine(text: FixedText, sceneCount: int, scenes: seq<Scene>)
    requires |scenes| > 0
    ensures Render(text, sceneCount, scenes).Success?
    ensures |Split(Render(text, sceneCount, scenes).value)| == FixedLineCount(text) + |scenes|
    ensures ReadCountLine(Split(Render(text, sceneCount, scenes).value)[CountIndex(text)]) == Some(sceneCount)
  {
    PromptLines(text, sceneCount, scenes);
    ReadCountLineOf(sceneCount);
  }

  /** The closing time window ends at the first scene's duration. */
  lemma PromptClosingWindow(text: FixedText, sceneCount: int, scenes: seq<Scene>)
    requires |scenes| > 0
    ensures Render(text, sceneCount, scenes).Success?
    ensures |Split(Render(text, sceneCount, scenes).value)| == FixedLineCount(text) + |scenes|
    ensures ReadClosingWindowLine(Split(Render(text, sceneCount, scenes).value)[ClosingIndex(text, |scenes|)])
         == Some(scenes[0].duration)
  {
    PromptLines(text, sceneCount, scenes);
    var lines := Split(Render(text, sceneCount, scenes).value);
    assert lines[ClosingIndex(text, |scenes|)] == ClosingWindowLine(scenes[0].duration);
    ReadClosingWindowLineOf(scenes[0].duration);
  }

  /**
    Two scene lists whose first durations agree give prompts that differ only
    in their SHOT lines: the durations of the later scenes reach no other line.
  */
  lemma PromptsDifferOnlyInShotLines(text: FixedText, sceneCount: int, a: seq<Scene>, b: seq<Scene>)
    requires |a| > 0 && |b| > 0 && a[0].duration == b[0].duration
    ensures Render(text, sceneCount, a).Success? && Render(text, sceneCount, b).Success?
    ensures var la, lb := Split(Render(text, sceneCount, a).value), Split(Render(text, sceneCount, b).value);
      && |la| == FixedLineCount(text) + |a| && |lb| == FixedLineCount(text) + |b|
      && la[..ShotsStart(text)] == lb[..ShotsStart(text)]
      && la[ShotsStart(text) + |a|..] == lb[ShotsStart(text) + |b|..]
  {
    PromptLines(text, sceneCount, a);
    PromptLines(text, sceneCount, b);
    var head := PromptHead(text, sceneCount);
    var tail := PromptTail(text, a[0].duration);
    Surround(head, ShotLines(a), tail);
    Surround(head, ShotLines(b), tail);
  }

  lemma Within<T>(head: seq<T>, middle: seq<T>, tail: seq<T>, k: nat)
    requires k < |middle|
    ensures (head + middle + tail)[|head| + k] == middle[k]
  {
  }

  lemma Surround<T>(head: seq<T>, middle: seq<T>, tail: seq<T>)
    ensures (head + middle + tail)[..|head|] == head
    ensures (head + middle + tail)[|head| + |middle|..] == tail
  {
  }

  /**
    `sceneCount` is never compared with the number of scenes: a count of 3
    with a single scene gives a prompt announcing 3 scenes and listing one SHOT line.
  */
  lemma SceneCountNotChecked(text: FixedText)
    ensures var lines := Split(Render(text, 3, [Scene(1, 15)]).value);
      && |lines| == FixedLineCount(text) + 1
      && ReadCountLine(lines[CountIndex(text)]) == Some(3)
  {
    PromptShotLines(text, 3, [Scene(1, 15)]);
    PromptCountLine(text, 3, [Scene(1, 15)]);
  }

  /** With durations 15, 20 and 10, every SHOT's closing window still ends at 15. */
  lemma ClosingWindowUsesFirstDuration(text: FixedText)
    ensures var scenes := [Scene(1, 15), Scene(2, 20), Scene(3, 10)];
      var lines := Split(Render(text, 3, scenes).value);
      && |lines| == FixedLineCount(text) + 3
      && ReadShotLine(lines[ShotsStart(text) + 1]) == Some(Scene(2, 20))
      && ReadShotLine(lines[ShotsStart(text) + 2]) == Some(Scene(3, 10))
      && ReadClosingWindowLine(lines[ClosingIndex(text, 3)]) == Some(15)
  {
    var scenes := [Scene(1, 15), Scene(2, 20), Scene(3, 10)];
    PromptShotLines(text, 3, scenes);
    PromptClosingWindow(text, 3, scenes);
  }
}
