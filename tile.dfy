/** The integer and string helpers of one GPU tile (GpuTile.jsx), and the
    tile's click-to-expand state. */
module TileView {
  import opened Telemetry
  import Text

  // ---------------------------------------------------------------------
  // Temperature class

  datatype Heat = Cool | Warm | Hot

  function HeatRank(h: Heat): nat {
    match h
    case Cool => 0
    case Warm => 1
    case Hot => 2
  }

  /** The CSS class name the tile uses for each heat level. */
  function HeatClass(h: Heat): (name: string)
    ensures name in {"cool", "warm", "hot"}
  {
    match h
    case Cool => "cool"
    case Warm => "warm"
    case Hot => "hot"
  }

  /** Different heat levels get different class names. */
  lemma HeatClassDistinct(a: Heat, b: Heat)
    requires a != b
    ensures HeatClass(a) != HeatClass(b)
  {
  }

  /** `hot` from 80 degrees, `warm` from 60, `cool` below. */
  function TempClass(temp: real): (h: Heat)
    ensures h == Hot <==> temp >= 80.0
    ensures h == Warm <==> 60.0 <= temp < 80.0
    ensures h == Cool <==> temp < 60.0
  {
    if temp >= 80.0 then Hot else if temp >= 60.0 then Warm else Cool
  }

  /** The class name of a temperature reading. */
  function TempClassName(temp: real): (name: string)
    ensures name == "hot" <==> temp >= 80.0
    ensures name == "warm" <==> 60.0 <= temp < 80.0
    ensures name == "cool" <==> temp < 60.0
  {
    HeatClass(TempClass(temp))
  }

  /** A hotter device never gets a cooler class. */
  lemma TempClassMonotone(t1: real, t2: real)
    requires t1 <= t2
    ensures HeatRank(TempClass(t1)) <= HeatRank(TempClass(t2))
  {
  }

  // ---------------------------------------------------------------------
  // Type icon

  datatype Icon = Brain | Microphone | Speaker | Package

  const BrainGlyph: string := "\U{1F9E0}"
  const MicrophoneGlyph: string := "\U{1F3A4}"
  const SpeakerGlyph: string := "\U{1F50A}"
  const PackageGlyph: string := "\U{1F4E6}"

  /** The emoji the tile prints for each icon. */
  function Glyph(i: Icon): (g: string)
    ensures g in {BrainGlyph, MicrophoneGlyph, SpeakerGlyph, PackageGlyph}
  {
    match i
    case Brain => BrainGlyph
    case Microphone => MicrophoneGlyph
    case Speaker => SpeakerGlyph
    case Package => PackageGlyph
  }

  /** Different icons print differently. */
  lemma GlyphDistinct(a: Icon, b: Icon)
    requires a != b
    ensures Glyph(a) != Glyph(b)
  {
  }

  /** The service type compared without regard to case; absent is absent. */
  function LowerKind(kind: Option<string>): Option<string> {
    if kind.Some? then Some(Text.Lower(kind.value)) else None
  }

  /** The icon for a service type: llm, stt and tts in any case get their own
      icon; an absent or any other type gets the package. */
  function TypeIcon(kind: Option<string>): (i: Icon)
    ensures i == Brain <==> LowerKind(kind) == Some("llm")
    ensures i == Microphone <==> LowerKind(kind) == Some("stt")
    ensures i == Speaker <==> LowerKind(kind) == Some("tts")
    ensures i == Package <==> LowerKind(kind) !in {Some("llm"), Some("stt"), Some("tts")}
  {
    match LowerKind(kind)
    case Some("llm") => Brain
    case Some("stt") => Microphone
    case Some("tts") => Speaker
    case _ => Package
  }

  /** The emoji printed for a service type. */
  function TypeGlyph(kind: Option<string>): (g: string)
    ensures g == BrainGlyph <==> LowerKind(kind) == Some("llm")
    ensures g == MicrophoneGlyph <==> LowerKind(kind) == Some("stt")
    ensures g == SpeakerGlyph <==> LowerKind(kind) == Some("tts")
    ensures g == PackageGlyph <==> LowerKind(kind) !in {Some("llm"), Some("stt"), Some("tts")}
  {
    Glyph(TypeIcon(kind))
  }

  /** Two spellings that differ only in case get the same icon. */
  lemma TypeIconIgnoresCase(a: string, b: string)
    requires Text.Lower(a) == Text.Lower(b)
    ensures TypeIcon(Some(a)) == TypeIcon(Some(b))
  {
  }

  // ---------------------------------------------------------------------
  // Short model name

  /** What follows the last '/' of `s`; all of `s` when it has none. */
  function LastSegment(s: string): (r: string)
    ensures '/' !in r
    ensures |r| <= |s| && s[|s| - |r|..] == r
    ensures |r| < |s| ==> s[|s| - |r| - 1] == '/'
    decreases |s|
  {
    if s == [] then []
    else if s[|s| - 1] == '/' then []
    else
      var p := s[..|s| - 1];
      var q := LastSegment(p);
      assert s[|s| - |q| - 1..] == p[|p| - |q|..] + [s[|s| - 1]];
      assert |q| < |p| ==> s[|s| - |q| - 2] == p[|p| - |q| - 1];
      q + [s[|s| - 1]]
  }

  /** The three properties of LastSegment pin it down. */
  lemma LastSegmentUnique(s: string, r: string)
    requires '/' !in r
    requires |r| <= |s| && s[|s| - |r|..] == r
    requires |r| < |s| ==> s[|s| - |r| - 1] == '/'
    ensures r == LastSegment(s)
  {
    var q := LastSegment(s);
    if |r| < |q| {
      assert false;
    } else if |q| < |r| {
      assert false;
    }
  }

  /** Position of the first occurrence of `c`, or |s| when there is none. */
  function IndexOf(s: string, c: char): (k: nat)
    ensures k <= |s|
    ensures k < |s| ==> s[k] == c
    ensures forall j :: 0 <= j < k ==> s[j] != c
  {
    if s == [] then 0 else if s[0] == c then 0 else 1 + IndexOf(s[1..], c)
  }

  /** `s.split(c)`: the pieces between occurrences of `c`, from the left. */
  function Split(s: string, c: char): (parts: seq<string>)
    ensures |parts| >= 1
    decreases |s|
  {
    var k := IndexOf(s, c);
    if k == |s| then [s] else [s[..k]] + Split(s[k + 1..], c)
  }

  /** A suffix of `s[k + 1..]` is the same suffix of `s`, and the character
      before it is either the one before it in `s[k + 1..]` or `s[k]`. */
  lemma SuffixOfTail(s: string, k: nat, r: string)
    requires k < |s|
    requires |r| <= |s| - k - 1 && s[k + 1..][|s| - k - 1 - |r|..] == r
    ensures s[|s| - |r|..] == r
    ensures |r| < |s| - k - 1 ==> s[|s| - |r| - 1] == s[k + 1..][|s| - k - 1 - |r| - 1]
    ensures |r| == |s| - k - 1 ==> s[|s| - |r| - 1] == s[k]
  {
    assert s[k + 1..][|s| - k - 1 - |r|..] == s[|s| - |r|..];
  }

  /** Everything up to a '/' can be dropped without changing the last segment. */
  lemma SegmentAfterSlash(s: string, k: nat)
    requires k < |s| && s[k] == '/'
    ensures LastSegment(s) == LastSegment(s[k + 1..])
  {
    var r := LastSegment(s[k + 1..]);
    SuffixOfTail(s, k, r);
    LastSegmentUnique(s, r);
  }

  /** The last piece of splitting on '/' is the last segment. */
  lemma {:induction false} LastPieceOfSplit(s: string)
    ensures var parts := Split(s, '/'); parts[|parts| - 1] == LastSegment(s)
    decreases |s|
  {
    var k := IndexOf(s, '/');
    var parts := Split(s, '/');
    if k == |s| {
      assert parts == [s];
      assert '/' !in s by {
        assert forall j :: 0 <= j < |s| ==> s[j] != '/';
      }
      assert s[|s| - |s|..] == s;
      LastSegmentUnique(s, s);
    } else {
      var tail := Split(s[k + 1..], '/');
      assert parts == [s[..k]] + tail;
      assert parts[|parts| - 1] == tail[|tail| - 1];
      LastPieceOfSplit(s[k + 1..]);
      SegmentAfterSlash(s, k);
    }
  }

  /** No name for an absent or empty model; otherwise its last path segment. */
  function ShortName(model: Option<string>): (r: Option<string>)
    ensures r.None? <==> model.None? || model.value == []
    ensures r.Some? ==> '/' !in r.value && r.value == LastSegment(model.value)
  {
    if model.None? || model.value == [] then None else Some(LastSegment(model.value))
  }

  // ---------------------------------------------------------------------
  // Uptime

  const MsPerMinute: int := 60000
  const MsPerHour: int := 3600000
  const MsPerDay: int := 86400000

  datatype Uptime =
    | DaysHours(days: int, hours: int)
    | HoursMinutes(hours: int, minutes: int)
    | MinutesOnly(minutes: int)

  /** Elapsed milliseconds split into the two leading units; every division
      rounds down, as Math.floor does (Dafny's division by a positive divisor
      also rounds down, negative dividends included). */
  function UptimeParts(elapsedMs: int): (u: Uptime)
    ensures u.DaysHours? <==> elapsedMs >= MsPerDay
    ensures u.HoursMinutes? <==> MsPerHour <= elapsedMs < MsPerDay
    ensures u.DaysHours? ==>
      && u.days >= 1 && 0 <= u.hours < 24
      && u.days * MsPerDay + u.hours * MsPerHour <= elapsedMs
      && elapsedMs < u.days * MsPerDay + (u.hours + 1) * MsPerHour
    ensures u.HoursMinutes? ==>
      && 1 <= u.hours < 24 && 0 <= u.minutes < 60
      && u.hours * MsPerHour + u.minutes * MsPerMinute <= elapsedMs
      && elapsedMs < u.hours * MsPerHour + (u.minutes + 1) * MsPerMinute
    ensures u.MinutesOnly? ==>
      && u.minutes < 60
      && u.minutes * MsPerMinute <= elapsedMs < (u.minutes + 1) * MsPerMinute
  {
    var minutes := elapsedMs / 60000;
    var hours := minutes / 60;
    var days := hours / 24;
    if days > 0 then DaysHours(days, hours % 24)
    else if hours > 0 then HoursMinutes(hours, minutes % 60)
    else MinutesOnly(minutes)
  }

  function RenderUptime(u: Uptime): string {
    match u
    case DaysHours(d, h) => Text.IntToString(d) + "d " + Text.IntToString(h) + "h"
    case HoursMinutes(h, m) => Text.IntToString(h) + "h " + Text.IntToString(m) + "m"
    case MinutesOnly(m) => Text.IntToString(m) + "m"
  }

  /** No uptime without a start time; otherwise the rendered parts of the
      elapsed time. */
  function FormatUptime(elapsedMs: Option<int>): (r: Option<string>)
    ensures r.None? <==> elapsedMs.None?
    ensures r.Some? ==> r.value == RenderUptime(UptimeParts(elapsedMs.value))
  {
    if elapsedMs.None? then None else Some(RenderUptime(UptimeParts(elapsedMs.value)))
  }

  // ---------------------------------------------------------------------
  // Context size

  datatype CtxSize = Tokens(n: int) | KiloTokens(k: int)

  /** None for an absent or zero limit; the exact count below 1024; otherwise
      the count in units of 1024, rounded half up as toFixed(0) rounds. */
  function ContextSize(maxTokens: Option<int>): (c: Option<CtxSize>)
    ensures c.None? <==> maxTokens.None? || maxTokens.value == 0
    ensures c.Some? && c.value.Tokens? ==> c.value.n == maxTokens.value < 1024
    ensures c.Some? && c.value.KiloTokens? ==>
      && maxTokens.value >= 1024 && c.value.k >= 1
      && 1024 * c.value.k - 512 <= maxTokens.value < 1024 * c.value.k + 512
  {
    if maxTokens.None? || maxTokens.value == 0 then None
    else if maxTokens.value >= 1024 then Some(KiloTokens((maxTokens.value + 512) / 1024))
    else Some(Tokens(maxTokens.value))
  }

  /** There is one integer within half a unit of n / 1024, the upper one on a tie. */
  lemma KiloRoundingUnique(n: int, k: int)
    requires n >= 1024
    requires 1024 * k - 512 <= n < 1024 * k + 512
    ensures ContextSize(Some(n)) == Some(KiloTokens(k))
  {
  }

  /** The context label: `<n> ctx` below 1024 tokens, `<k>K ctx` from 1024. */
  function FormatMaxTokens(maxTokens: Option<int>): (r: Option<string>)
    ensures r.None? <==> ContextSize(maxTokens).None?
    ensures forall n :: ContextSize(maxTokens) == Some(Tokens(n)) ==>
      r == Some(Text.IntToString(n) + " ctx")
    ensures forall k :: ContextSize(maxTokens) == Some(KiloTokens(k)) ==>
      r == Some(Text.IntToString(k) + "K ctx")
  {
    match ContextSize(maxTokens)
    case None => None
    case Some(Tokens(n)) => Some(Text.IntToString(n) + " ctx")
    case Some(KiloTokens(k)) => Some(Text.IntToString(k) + "K ctx")
  }

  // ---------------------------------------------------------------------
  // Example request

  /** Which example request the tile offers, and for which model name. */
  datatype Example =
    | NoExample
    | SpeechToText(model: string)
    | TextToSpeech(model: string)
    | Chat(model: string)

  /** The service's model, or the placeholder when it is absent or empty. */
  function ModelName(s: Service): (m: string)
    ensures m != []
    ensures s.model.Some? && s.model.value != [] ==> m == s.model.value
    ensures s.model.None? || s.model.value == [] ==> m == "model-name"
  {
    if s.model.Some? && s.model.value != [] then s.model.value else "model-name"
  }

  /** Nothing without a service; the speech-to-text request iff the lowered
      type is stt, text-to-speech iff tts, and the chat request otherwise. */
  function ExampleFor(service: Option<Service>): (e: Example)
    ensures e.NoExample? <==> service.None?
    ensures e.SpeechToText? <==> service.Some? && LowerKind(service.value.kind) == Some("stt")
    ensures e.TextToSpeech? <==> service.Some? && LowerKind(service.value.kind) == Some("tts")
    ensures !e.NoExample? ==> e.model == ModelName(service.value)
  {
    if service.None? then NoExample
    else
      var kind := LowerKind(service.value.kind);
      var model := ModelName(service.value);
      if kind == Some("stt") then SpeechToText(model)
      else if kind == Some("tts") then TextToSpeech(model)
      else Chat(model)
  }

  /** The example follows the icon: microphone for speech-to-text, speaker for
      text-to-speech, and the chat request for every other icon, the
      unrecognised types included. */
  lemma ExampleMatchesIcon(s: Service)
    ensures ExampleFor(Some(s)).SpeechToText? <==> TypeIcon(s.kind) == Microphone
    ensures ExampleFor(Some(s)).TextToSpeech? <==> TypeIcon(s.kind) == Speaker
    ensures ExampleFor(Some(s)).Chat? <==> TypeIcon(s.kind) in {Brain, Package}
  {
  }

  // ---------------------------------------------------------------------
  // Click to expand

  /** One tile. `gpu` and `service` are the props of the latest render; the
      tile is keyed by its GPU index, so `expanded` survives re-renders,
      including one whose snapshot no longer has a service for the GPU. */
  class Tile {
    var gpu: Gpu
    var service: Option<Service>
    var expanded: bool

    constructor (gpu: Gpu, service: Option<Service>)
      ensures this.gpu == gpu && this.service == service && !expanded
    {
      this.gpu := gpu;
      this.service := service;
      expanded := false;
    }

    /** A new snapshot renders the tile again with new props; the expansion
        state is kept. The tile is keyed by its GPU index, so only a GPU with
        the same index reaches this instance; any other index mounts a new,
        collapsed tile. */
    method Rerender(gpu': Gpu, service': Option<Service>)
      requires gpu'.index == gpu.index
      modifies this
      ensures gpu == gpu' && service == service' && expanded == old(expanded)
    {
      gpu := gpu';
      service := service';
    }

    /** A click flips `expanded` when there is a service, and does nothing otherwise. */
    method Click()
      modifies this
      ensures gpu == old(gpu) && service == old(service)
      ensures service.Some? ==> expanded == !old(expanded)
      ensures service.None? ==> expanded == old(expanded)
    {
      if service.Some? {
        expanded := !expanded;
      }
    }

    /** The example panel: shown exactly when the tile is expanded and has a
        service, and then it holds that service's example request. */
    function Panel(): (e: Example)
      reads this
      ensures e.NoExample? <==> !expanded || service.None?
      ensures !e.NoExample? ==> e == ExampleFor(service)
    {
      if expanded then ExampleFor(service) else NoExample
    }
  }
}
