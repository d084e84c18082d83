/** The frame-counter layer: it counts the successful presents of every
    queue and, between a start and an end frame, measures the elapsed time,
    which it reports in a small text file. The clock is an input: `now` is
    what `std::chrono::steady_clock::now()` returns, in nanoseconds, and the
    clock's epoch (`time_point{}`) is 0. The output file is a map from file
    name to contents. */
module FrameCounterLayer {
  import opened Wrappers
  import opened Text
  import opened VulkanLayer

  const Uint64Modulus: nat := 0x1_0000_0000_0000_0000

  /** `time_point{}`: the value `start_time` holds until the start frame is seen. */
  const Epoch: int := 0

  /** `kLayerProperties[0]`. */
  const FrameCounterLayerProperties :=
    LayerProperties("VkLayer_GF_frame_counter", MakeVersion(1, 1, 130), 1, "Frame counter layer.")

  /** `IsThisLayer`: the name is present and is the layer's own. */
  function IsThisLayer(layerName: Option<string>): (b: bool)
    ensures b <==> layerName == Some("VkLayer_GF_frame_counter")
  {
    VulkanLayer.IsThisLayer(layerName, FrameCounterLayerProperties)
  }

  /** `vkEnumerateInstanceLayerProperties`: the layer reports only itself. */
  method EnumerateInstanceLayerProperties(propertyCount: nat, properties: array?<LayerProperties>)
    returns (result: VkResult, count: nat)
    requires properties != null ==> propertyCount <= properties.Length
    modifies properties
    ensures properties == null ==> result == Success && count == 1
    ensures properties != null && propertyCount == 0 ==>
      result == Incomplete && count == 0 && properties[..] == old(properties[..])
    ensures properties != null && propertyCount > 0 ==>
      && result == Success && count == 1
      && properties[0].layerName == "VkLayer_GF_frame_counter"
      && properties[0] == FrameCounterLayerProperties && properties[1..] == old(properties[1..])
  {
    result, count := VulkanLayer.EnumerateInstanceLayerProperties(FrameCounterLayerProperties, propertyCount, properties);
  }

  /** `FrameCounterLayerSettings`: read once, then read-only. */
  datatype Settings = Settings(init: bool, startFrame: nat, endFrame: nat, outputFile: string)

  const DefaultSettings := Settings(false, 0, 0, "")

  /** The part of `GlobalData` that presents change: the frame counter, the
      recorded start time, and the files written. */
  datatype Counter = Counter(frameCounter: nat, startTime: int, files: map<string, string>)

  /** Whether a present result is counted: `VK_SUCCESS` or `VK_SUBOPTIMAL_KHR`. */
  predicate Counted(result: VkResult) {
    result == Success || result == SuboptimalKhr
  }

  /** The report: four lines, each ended by a newline. The frame count is
      the unsigned 64-bit difference `end - start`. */
  function Report(startFrame: nat, endFrame: nat, duration: int): (r: string)
  {
    Join(ReportLines(startFrame, endFrame, duration), "\n")
  }

  function ReportLines(startFrame: nat, endFrame: nat, duration: int): (lines: seq<string>)
  {
    [ "Start frame: " + NatToString(startFrame),
      "End frame: " + NatToString(endFrame),
      "Frame count: " + NatToString((endFrame - startFrame) % Uint64Modulus),
      "Duration: " + IntToString(duration) + "ns",
      "" ]
  }

  /** What a report says. */
  datatype ReportFields = ReportFields(startFrame: nat, endFrame: nat, frameCount: nat, duration: int)

  /** Reads a report back: five newline-separated pieces, the last empty,
      each of the others its label followed by a number. */
  function ParseReport(text: string): (r: Option<ReportFields>)
  {
    ParseReportLines(Split(text, '\n'))
  }

  function ParseReportLines(lines: seq<string>): (r: Option<ReportFields>)
  {
    if |lines| != 5 || lines[4] != "" then None
    else if !StartsWith(lines[3], "Duration: ") || !EndsWith(lines[3], "ns")
         || |lines[3]| < |"Duration: "| + |"ns"| then None
    else
      match (NumberAfter(lines[0], "Start frame: "), NumberAfter(lines[1], "End frame: "),
             NumberAfter(lines[2], "Frame count: "),
             ParseInt(lines[3][|"Duration: "|..|lines[3]| - |"ns"|]))
      case (Some(s), Some(e), Some(c), Some(d)) => Some(ReportFields(s, e, c, d))
      case _ => None
  }

  /** The number after a line's label, if the line has that label. */
  function NumberAfter(line: string, prefix: string): Option<nat>
  {
    if StartsWith(line, prefix) then ParseNat(line[|prefix|..]) else None
  }

  /** The report splits back into its lines: no line holds a newline. */
  lemma SplitReport(startFrame: nat, endFrame: nat, duration: int)
    ensures Split(Report(startFrame, endFrame, duration), '\n') == ReportLines(startFrame, endFrame, duration)
  {
    var lines := ReportLines(startFrame, endFrame, duration);
    NumberLineNoBreak("Start frame: ", NatToString(startFrame), "");
    NumberLineNoBreak("End frame: ", NatToString(endFrame), "");
    NumberLineNoBreak("Frame count: ", NatToString((endFrame - startFrame) % Uint64Modulus), "");
    NumberLineNoBreak("Duration: ", IntToString(duration), "ns");
    assert forall i :: 0 <= i < |lines| ==> '\n' !in lines[i];
    SplitJoin(lines, '\n');
  }

  /** A label, a rendered number and a suffix hold no line break. */
  lemma NumberLineNoBreak(prefix: string, number: string, suffix: string)
    requires forall k :: 0 <= k < |prefix| ==> prefix[k] != '\n'
    requires forall k :: 0 <= k < |suffix| ==> suffix[k] != '\n'
    requires forall k :: 0 <= k < |number| ==> number[k] == '-' || IsDigit(number[k])
    ensures '\n' !in prefix + number && '\n' !in prefix + number + suffix
  {
    assert prefix + number == (prefix + number + suffix)[..|prefix| + |number|];
    var s := prefix + number + suffix;
    forall k | 0 <= k < |s|
      ensures s[k] != '\n'
    {
      if k < |prefix| {
        assert s[k] == prefix[k];
      } else if k < |prefix| + |number| {
        assert s[k] == number[k - |prefix|];
      } else {
        assert s[k] == suffix[k - |prefix| - |number|];
      }
    }
  }

  /** A line made of a label, a value and a suffix gives the value back. */
  lemma LabelledLine(prefix: string, value: string, suffix: string)
    ensures var line := prefix + value + suffix;
      && StartsWith(line, prefix) && EndsWith(line, suffix) && |line| >= |prefix| + |suffix|
      && line[|prefix|..|line| - |suffix|] == value
      && (suffix == "" ==> line == prefix + value && line[|prefix|..] == value)
  {
    var line := prefix + value + suffix;
    assert line[..|prefix|] == prefix;
    assert line[|line| - |suffix|..] == suffix;
    assert line[|prefix|..|line| - |suffix|] == value;
    if suffix == "" {
      assert line == prefix + value;
    }
  }

  /** The report says what was measured, and its frame count wraps to the
      64-bit difference when the end frame is before the start frame. */
  lemma ParseReportOfReport(startFrame: nat, endFrame: nat, duration: int)
    ensures ParseReport(Report(startFrame, endFrame, duration))
            == Some(ReportFields(startFrame, endFrame, (endFrame - startFrame) % Uint64Modulus, duration))
    ensures startFrame <= endFrame < Uint64Modulus ==> (endFrame - startFrame) % Uint64Modulus == endFrame - startFrame
  {
    var count := (endFrame - startFrame) % Uint64Modulus;
    var lines := ReportLines(startFrame, endFrame, duration);
    SplitReport(startFrame, endFrame, duration);
    NumberAfterLabel("Start frame: ", startFrame);
    NumberAfterLabel("End frame: ", endFrame);
    NumberAfterLabel("Frame count: ", count);
    LabelledLine("Duration: ", IntToString(duration), "ns");
    ParseIntToString(duration);
  }

  lemma NumberAfterLabel(prefix: string, n: nat)
    ensures NumberAfter(prefix + NatToString(n), prefix) == Some(n)
  {
    LabelledLine(prefix, NatToString(n), "");
    ParseNatToString(n);
  }

  /** One present, after the next layer has returned `result` at time `now`. */
  function PresentStep(settings: Settings, c: Counter, result: VkResult, now: int): (r: Counter)
  {
    if !Counted(result) || settings.startFrame == settings.endFrame then c
    else
      var current := c.frameCounter;
      var next := c.(frameCounter := (current + 1) % Uint64Modulus);
      if current == settings.startFrame then next.(startTime := now)
      else if current == settings.endFrame then
        var duration := if c.startTime == Epoch then 0 else now - c.startTime;
        next.(files := c.files[settings.outputFile := Report(settings.startFrame, settings.endFrame, duration)])
      else next
  }

  /** A present: the result the next layer returned and the clock reading. */
  datatype Present = Present(result: VkResult, now: int)

  /** A run of presents, in order. */
  function Presents(settings: Settings, c: Counter, presents: seq<Present>): (r: Counter)
    decreases |presents|
  {
    if |presents| == 0 then c
    else
      var last := presents[|presents| - 1];
      PresentStep(settings, Presents(settings, c, presents[..|presents| - 1]), last.result, last.now)
  }

  /** With equal start and end frames nothing is ever counted or written. */
  lemma {:induction false} NothingWhenStartIsEnd(settings: Settings, c: Counter, presents: seq<Present>)
    requires settings.startFrame == settings.endFrame
    ensures Presents(settings, c, presents) == c
    decreases |presents|
  {
    if |presents| > 0 {
      NothingWhenStartIsEnd(settings, c, presents[..|presents| - 1]);
    }
  }

  /** Failed presents are not counted: the counter advances by exactly the
      number of counted presents (below the 64-bit wrap) and the files are
      untouched until the end frame is reached. */
  lemma {:induction false} CountedPresents(settings: Settings, files: map<string, string>, presents: seq<Present>)
    requires settings.startFrame != settings.endFrame
    requires |presents| <= settings.endFrame < Uint64Modulus
    ensures Presents(settings, Counter(0, Epoch, files), presents).frameCounter == CountOf(presents)
    ensures Presents(settings, Counter(0, Epoch, files), presents).files == files
    decreases |presents|
  {
    if |presents| > 0 {
      var init := presents[..|presents| - 1];
      CountedPresents(settings, files, init);
    }
  }

  /** The number of counted presents. */
  function CountOf(presents: seq<Present>): (n: nat)
    ensures n <= |presents|
  {
    if |presents| == 0 then 0
    else CountOf(presents[..|presents| - 1]) + (if Counted(presents[|presents| - 1].result) then 1 else 0)
  }

  /** All presents succeeded, at the given times. */
  function Successes(times: seq<int>): (presents: seq<Present>)
    ensures |presents| == |times|
    ensures forall i :: 0 <= i < |times| ==> presents[i] == Present(Success, times[i])
  {
    if |times| == 0 then [] else Successes(times[..|times| - 1]) + [Present(Success, times[|times| - 1])]
  }

  /** Before the end frame: `k` successful presents have set the counter to
      `k` and, once the start frame was passed, the start time to the time
      of the start frame's present. */
  lemma {:induction false} BeforeEndFrame(settings: Settings, files: map<string, string>, times: seq<int>)
    requires settings.startFrame != settings.endFrame
    requires |times| <= settings.endFrame < Uint64Modulus
    ensures Presents(settings, Counter(0, Epoch, files), Successes(times))
            == Counter(|times|, if settings.startFrame < |times| then times[settings.startFrame] else Epoch, files)
    decreases |times|
  {
    if |times| > 0 {
      var init := times[..|times| - 1];
      SuccessesSnoc(times);
      BeforeEndFrame(settings, files, init);
      PresentBeforeEnd(settings, Presents(settings, Counter(0, Epoch, files), Successes(init)), times[|times| - 1]);
    }
  }

  lemma SuccessesSnoc(times: seq<int>)
    requires |times| > 0
    ensures Successes(times)[..|times| - 1] == Successes(times[..|times| - 1])
    ensures Successes(times)[|times| - 1] == Present(Success, times[|times| - 1])
  {
  }

  /** A successful present before the end frame advances the counter and,
      at the start frame, records the time. */
  lemma PresentBeforeEnd(settings: Settings, c: Counter, now: int)
    requires settings.startFrame != settings.endFrame && c.frameCounter < settings.endFrame < Uint64Modulus
    ensures PresentStep(settings, c, Success, now)
            == Counter(c.frameCounter + 1, if c.frameCounter == settings.startFrame then now else c.startTime, c.files)
  {
  }

  /** The measurement: starting from the initial state, the present of the
      end frame writes the report. Its duration is the time between the
      start and end frames' presents when the start frame came first, and 0
      when the start time was never set (an end frame before the start
      frame, or a start frame seen at the clock's epoch). */
  lemma MeasuredWindow(settings: Settings, files: map<string, string>, times: seq<int>)
    requires settings.startFrame != settings.endFrame
    requires |times| == settings.endFrame + 1 && settings.endFrame < Uint64Modulus
    ensures
      var startTime := if settings.startFrame < settings.endFrame then times[settings.startFrame] else Epoch;
      var duration := if startTime == Epoch then 0 else times[settings.endFrame] - startTime;
      Presents(settings, Counter(0, Epoch, files), Successes(times))
      == Counter((settings.endFrame + 1) % Uint64Modulus, startTime,
                 files[settings.outputFile := Report(settings.startFrame, settings.endFrame, duration)])
  {
    var init := times[..|times| - 1];
    var presents := Successes(times);
    assert presents[..|times| - 1] == Successes(init);
    BeforeEndFrame(settings, files, init);
    var before := Presents(settings, Counter(0, Epoch, files), Successes(init));
    assert before.frameCounter == settings.endFrame;
    assert presents[|times| - 1] == Present(Success, times[settings.endFrame]);
    assert Presents(settings, Counter(0, Epoch, files), presents)
           == PresentStep(settings, before, Success, times[settings.endFrame]);
  }

  class FrameCounterLayer {
    var settings: Settings
    var frameCounter: nat
    var startTime: int
    /** The contents of every file the layer wrote, by name. */
    var files: map<string, string>

    ghost function Get(): Counter
      reads this
    {
      Counter(frameCounter, startTime, files)
    }

    /** The counter and the two frame settings are `uint64_t`. */
    ghost predicate Valid()
      reads this
    {
      frameCounter < Uint64Modulus && settings.startFrame < Uint64Modulus && settings.endFrame < Uint64Modulus
    }

    constructor ()
      ensures Valid() && settings == DefaultSettings && Get() == Counter(0, Epoch, map[])
    {
      settings := DefaultSettings;
      frameCounter := 0;
      startTime := Epoch;
      files := map[];
    }

    /** `InitSettingsIfNeeded`: the settings arrive already read, `None`
        when unset; an unset setting keeps its default. Only the first call
        has an effect. The two frame numbers are read as `uint64_t`. */
    method InitSettingsIfNeeded(startFrame: Option<nat>, endFrame: Option<nat>, outputFile: Option<string>)
      requires Valid()
      requires startFrame.Some? ==> startFrame.value < Uint64Modulus
      requires endFrame.Some? ==> endFrame.value < Uint64Modulus
      modifies this`settings
      ensures Valid()
      ensures old(settings).init ==> settings == old(settings)
      ensures !old(settings).init ==>
        settings == Settings(true, startFrame.GetOr(old(settings).startFrame), endFrame.GetOr(old(settings).endFrame),
                             outputFile.GetOr(old(settings).outputFile))
    {
      if !settings.init {
        if startFrame.Some? {
          settings := settings.(startFrame := startFrame.value);
        }
        if endFrame.Some? {
          settings := settings.(endFrame := endFrame.value);
        }
        if outputFile.Some? {
          settings := settings.(outputFile := outputFile.value);
        }
        settings := settings.(init := true);
      }
    }

    /** `vkQueuePresentKHR`, after the next layer's present returned
        `nextLayerResult` and the clock read `now`. The result is passed
        through unchanged. */
    method QueuePresent(nextLayerResult: VkResult, now: int) returns (result: VkResult)
      requires Valid()
      modifies this`frameCounter, this`startTime, this`files
      ensures Valid() && result == nextLayerResult
      ensures Get() == PresentStep(settings, old(Get()), nextLayerResult, now)
    {
      result := nextLayerResult;
      if result == Success || result == SuboptimalKhr {
        if settings.startFrame == settings.endFrame {
          return;
        }
        var currentFrame := frameCounter;
        frameCounter := (frameCounter + 1) % Uint64Modulus;
        if currentFrame == settings.startFrame {
          startTime := now;
        } else if currentFrame == settings.endFrame {
          var duration := now - startTime;
          if startTime == Epoch {
            duration := 0;
          }
          var report := Report(settings.startFrame, settings.endFrame, duration);
          files := files[settings.outputFile := report];
        }
      }
    }
  }
}
