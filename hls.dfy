/**
 * What the player takes from hls.js: the renditions of a parsed playlist, the
 * quality menu derived from them, the label shown after a level switch, and
 * how a reported error is handled. hls.js itself is not modelled: an engine
 * is a handle with its levels, its forced level and whether it was destroyed.
 */
module Hls {
  import opened Wrappers
  import opened JsText
  import opened Clock

  /** One rendition of the master playlist as hls.js reports it in
      `data.levels` / `hls.levels` */
  datatype Level = Level(height: nat, width: nat, bitrate: nat, duration: Seconds)

  /** One entry of the quality menu */
  datatype QualityLevel = QualityLevel(id: nat, height: nat, name: string, bandwidth: nat, width: nat)

  /** An engine instance: `generation` tells instances apart; `currentLevel`
      is -1 while hls.js chooses the level itself */
  datatype Engine = Engine(generation: nat, levels: seq<Level>, currentLevel: int, destroyed: bool)

  /** `${height}p` */
  function QualityName(height: nat): (name: string)
    ensures |name| > 0 && name[|name| - 1] == 'p'
  {
    NatToString(height) + "p"
  }

  /** The label is the decimal height followed by "p", so it reads back as the
      height; two labels agree exactly when the heights do */
  lemma QualityNameReadsBack(height: nat, other: nat)
    ensures var name := QualityName(height);
      |name| >= 2 && name[|name| - 1] == 'p' && AllDigits(name[..|name| - 1])
      && ParseDigits(name[..|name| - 1]) == height
    ensures QualityName(height) == QualityName(other) <==> height == other
  {
    var name := QualityName(height);
    assert name[..|name| - 1] == NatToString(height);
    ParseNatToString(height);
    if QualityName(height) == QualityName(other) {
      var name' := QualityName(other);
      assert name'[..|name'| - 1] == NatToString(other);
      ParseNatToString(other);
    }
  }

  /** The quality list built on MANIFEST_PARSED: one entry per level, in order */
  function Qualities(levels: seq<Level>): (qs: seq<QualityLevel>)
    ensures |qs| == |levels|
  {
    seq(|levels|, i requires 0 <= i < |levels| =>
      QualityLevel(i, levels[i].height, QualityName(levels[i].height), levels[i].bitrate, levels[i].width))
  }

  /** Entry i of the menu is level i: its id is its index, and its name is
      that level's height followed by "p" */
  lemma QualityEntry(levels: seq<Level>, i: nat)
    requires i < |levels|
    ensures Qualities(levels)[i].id == i
    ensures Qualities(levels)[i].height == levels[i].height
    ensures Qualities(levels)[i].name == QualityName(levels[i].height)
    ensures Qualities(levels)[i].bandwidth == levels[i].bitrate && Qualities(levels)[i].width == levels[i].width
  {
  }

  /** LEVEL_SWITCHED: `hls.levels[l]?.height + 'p' || 'auto'`. Outside the
      level list the sum is the text "undefinedp", which is truthy, so the
      'auto' fallback is never taken. */
  function LevelSwitchLabel(levels: seq<Level>, l: int): (text: string)
    ensures |text| > 0 && text[|text| - 1] == 'p' && text != "auto"
    ensures 0 <= l < |levels| ==> text == Qualities(levels)[l].name
  {
    if 0 <= l < |levels| then QualityName(levels[l].height) else "undefinedp"
  }

  /** The label `changeQuality` writes: 'auto' for -1, the menu entry's name
      for an index in range, and 'auto' for any other index */
  function ChosenQuality(qs: seq<QualityLevel>, index: int): (text: string)
    ensures index == -1 ==> text == "auto"
    ensures 0 <= index < |qs| && qs[index].name != "" ==> text == qs[index].name
    ensures index != -1 && !(0 <= index < |qs| && qs[index].name != "") ==> text == "auto"
    ensures text == "auto" || exists i :: 0 <= i < |qs| && text == qs[i].name
  {
    if index == -1 then "auto"
    else if 0 <= index < |qs| && qs[index].name != "" then qs[index].name
    else "auto"
  }

  /** Picking a menu entry writes the same label the engine's later
      LEVEL_SWITCHED event for that level writes; for an index outside the
      list the two disagree ('auto' against "undefinedp") */
  lemma ChosenMatchesSwitched(levels: seq<Level>, index: int)
    ensures 0 <= index < |levels| ==>
      ChosenQuality(Qualities(levels), index) == LevelSwitchLabel(levels, index)
    ensures index != -1 && !(0 <= index < |levels|) ==>
      ChosenQuality(Qualities(levels), index) == "auto" && LevelSwitchLabel(levels, index) == "undefinedp"
  {
    if 0 <= index < |levels| {
      assert Qualities(levels)[index].name == QualityName(levels[index].height);
    }
  }

  // ------------------------------------------------------------------ errors

  datatype ErrorType = NetworkError | MediaError | OtherError(name: string)

  /** The payload of an hls.js ERROR event */
  datatype HlsError = HlsError(fatal: bool, kind: ErrorType, details: string)

  /** What the ERROR handler does about an error */
  datatype Recovery =
    | Ignore                                   // non-fatal: nothing
    | Reconnect(message: string, delayMs: nat) // show the message, `startLoad` after the delay
    | RecoverMedia                             // `recoverMediaError`, state untouched
    | Teardown(message: string)                // show the message, `destroy` the engine

  const ReconnectMessage := "Network error - attempting to reconnect..."
  const ReconnectDelayMs: nat := 3000
  const PlaybackErrorPrefix := "Playback error: "

  function Classify(e: HlsError): (r: Recovery)
    ensures r.Ignore? <==> !e.fatal
    ensures r.Reconnect? <==> e.fatal && e.kind.NetworkError?
    ensures r.Reconnect? ==> r == Reconnect(ReconnectMessage, ReconnectDelayMs)
    ensures r.RecoverMedia? <==> e.fatal && e.kind.MediaError?
    ensures r.Teardown? <==> e.fatal && e.kind.OtherError?
    ensures r.Teardown? ==> r.message == PlaybackErrorPrefix + e.details && Contains(r.message, e.details)
  {
    if !e.fatal then Ignore
    else match e.kind
      case NetworkError => Reconnect(ReconnectMessage, ReconnectDelayMs)
      case MediaError => RecoverMedia
      case OtherError(_) =>
        ContainsWitness(PlaybackErrorPrefix + e.details, e.details, |PlaybackErrorPrefix|);
        Teardown(PlaybackErrorPrefix + e.details)
  }
}
