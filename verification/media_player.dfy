/**
 * The Home Assistant entity Karadio32 (custom_components/karadio32/media_player.py).
 *
 * The entity holds what it last learned about the radio in four attributes
 * (state, source, volume level, media title), each absent until first set, and
 * a source list fixed at construction. Its commands change an attribute and
 * forward one request to the client; async_update reads the infos dictionary
 * and overwrites the attributes one after another, so an exception raised
 * half-way leaves the attributes assigned before it in place.
 */
module MediaPlayer {
  import opened Wrappers
  import opened Builtins
  import opened Karadio32Client

  /** MediaPlayerState as far as this entity sets it. */
  datatype PlayerState = Playing | Paused

  /** The exceptions the entity's methods let escape. */
  datatype EntityError =
    | ClientFailed(cause: Error)     // raised by the client's info()
    | MissingKey(key: string)        // KeyError on the infos dictionary
    | NotAnInteger(text: string)     // ValueError from int()
    | VolumeOverflow(vol: int)       // OverflowError from int(vol) / 255
    | NoSourceList                   // the source list was never set: None has no index() and no subscript
    | StationOutOfRange(index: int)  // IndexError from source_list[num]
    | SourceNotListed                // ValueError from list.index()

  /** The attributes async_update and the commands overwrite. */
  datatype Attributes = Attributes(
    state: Option<PlayerState>,
    source: Option<string>,
    volumeLevel: Option<real>,
    mediaTitle: Option<string>)

  const UniqueIdPrefix: string := "KaRadio32-"

  /**
   * 255 * (2^1024 - 2^970). Dividing an integer by 255 rounds the exact quotient to the
   * nearest binary64 float, ties to even; a quotient of magnitude 2^1024 - 2^970 or more,
   * halfway past the largest finite float, rounds to 2^1024 and raises OverflowError.
   */
  const VolumeOverflowBound: int := 45841174938989053102400887708352370845383203841059645868724313640013466914655011491395499584284737809564223036256686417291371664702244802670817659611233984273886770010180637837449832985683516440599941311218867813170698574703824943279064512908801199643363912953313205229607391447723374563725934445365564496936960

  /** int(vol) / 255 yields a float rather than raising OverflowError. */
  predicate VolumeFits(vol: int)
  {
    -VolumeOverflowBound < vol < VolumeOverflowBound
  }

  /** The state for an infos "sts" value: paused for "0", playing for anything else. */
  function StateFor(sts: string): (s: PlayerState)
    ensures s == Paused <==> sts == "0"
  {
    if sts == "0" then Paused else Playing
  }

  /** source_list.index(source): the first position of the source, or the exception index() raises. */
  function StationOf(sources: Option<seq<string>>, source: Option<string>): (r: Result<nat, EntityError>)
    ensures sources.None? ==> r == Failure(NoSourceList)
    ensures r.Success? <==> sources.Some? && source.Some? && source.value in sources.value
    ensures r.Success? ==>
      && r.value < |sources.value|
      && sources.value[r.value] == source.value
      && source.value !in sources.value[..r.value]
    ensures sources.Some? && r.Failure? ==> r.error == SourceNotListed
  {
    match sources
    case None => Failure(NoSourceList)
    case Some(list) =>
      match source
      case None => Failure(SourceNotListed)
      case Some(s) =>
        match IndexOf(list, s)
        case None => Failure(SourceNotListed)
        case Some(k) => Success(k)
  }

  /**
   * What async_update does with the infos dictionary: the attributes after it and whether it
   * completed. Each step either raises, keeping the attributes set so far, or sets one more.
   */
  function ApplyInfo(a: Attributes, sources: Option<seq<string>>, info: map<string, string>): (Attributes, Outcome<EntityError>)
  {
    if "vol" !in info then (a, Fail(MissingKey("vol")))
    else match ParseInt(info["vol"])
    case None => (a, Fail(NotAnInteger(info["vol"])))
    case Some(vol) =>
      if !VolumeFits(vol) then (a, Fail(VolumeOverflow(vol)))
      else
      var a1 := a.(volumeLevel := Some(vol as real / 255.0));
      if "tit" !in info then (a1, Fail(MissingKey("tit")))
      else
        var a2 := a1.(mediaTitle := Some(info["tit"]));
        if "sts" !in info then (a2, Fail(MissingKey("sts")))
        else
          var a3 := a2.(state := Some(StateFor(info["sts"])));
          if "num" !in info then (a3, Fail(MissingKey("num")))
          else match ParseInt(info["num"])
          case None => (a3, Fail(NotAnInteger(info["num"])))
          case Some(num) =>
            match sources
            case None => (a3, Fail(NoSourceList))
            case Some(list) =>
              match Subscript(list, num)
              case None => (a3, Fail(StationOutOfRange(num)))
              case Some(s) => (a3.(source := Some(s)), Pass)
  }

  /** The Karadio32 media player entity. */
  class Karadio32 {
    const api: Api
    const uniqueId: string
    /** _attr_source_list: None unless the constructor was given a non-empty list. */
    const sourceList: Option<seq<string>>
    const swVersion: Option<string>
    var state: Option<PlayerState>
    var source: Option<string>
    var volumeLevel: Option<real>
    var mediaTitle: Option<string>

    function Current(): Attributes
      reads this
    {
      Attributes(state, source, volumeLevel, mediaTitle)
    }

    /** __init__: the id is derived from the client's host; an empty or absent source list is not adopted. */
    constructor (api: Api, sources: Option<seq<string>>, swVersion: Option<string>)
      ensures this.api == api
      ensures uniqueId == UniqueIdPrefix + api.host
      ensures sourceList == if sources.Some? && sources.value != [] then sources else None
      ensures this.swVersion == swVersion
      ensures Current() == Attributes(None, None, None, None)
    {
      this.api := api;
      uniqueId := UniqueIdPrefix + api.host;
      if sources.Some? && sources.value != [] {
        sourceList := sources;
      } else {
        sourceList := None;
      }
      this.swVersion := swVersion;
      state := None;
      source := None;
      volumeLevel := None;
      mediaTitle := None;
    }

    /** async_media_stop: sends stop, then reports paused. */
    method MediaStop()
      modifies this, api
      ensures api.log == old(api.log) + [StopQuery]
      ensures Current() == old(Current()).(state := Some(Paused))
    {
      api.Stop();
      state := Some(Paused);
    }

    /** async_media_play: plays the current source's position in the list, then reports playing. */
    method MediaPlay() returns (r: Outcome<EntityError>)
      modifies this, api
      ensures match StationOf(sourceList, old(source))
        case Failure(e) =>
          r == Fail(e) && api.log == old(api.log) && Current() == old(Current())
        case Success(k) =>
          r == Pass && api.log == old(api.log) + [PlayQuery(k)] && Current() == old(Current()).(state := Some(Playing))
    {
      var k := StationOf(sourceList, source);
      if k.Failure? {
        return Fail(k.error);
      }
      api.Play(k.value);
      state := Some(Playing);
      return Pass;
    }

    /** async_select_source: records the source first, then plays its position in the list. */
    method SelectSource(s: string) returns (r: Outcome<EntityError>)
      modifies this, api
      ensures Current() == old(Current()).(source := Some(s))
      ensures match StationOf(sourceList, Some(s))
        case Failure(e) => r == Fail(e) && api.log == old(api.log)
        case Success(k) => r == Pass && api.log == old(api.log) + [PlayQuery(k)]
    {
      source := Some(s);
      var k := StationOf(sourceList, Some(s));
      if k.Failure? {
        return Fail(k.error);
      }
      api.Play(k.value);
      return Pass;
    }

    /** async_set_volume_level: records the level as given and lets the client clamp what it sends. */
    method SetVolumeLevel(volume: real)
      modifies this, api
      ensures Current() == old(Current()).(volumeLevel := Some(volume))
      ensures api.log == old(api.log) + [VolumeQuery(VolumeLevel(volume))]
    {
      volumeLevel := Some(volume);
      api.SetVolume(volume);
    }

    /** async_update: fetches infos and overwrites volume, title, state and source in that order. */
    method Update() returns (r: Outcome<EntityError>)
      modifies this, api
      ensures api.log == old(api.log) + [InfosQuery]
      ensures match InfoResult(api.respond(InfosQuery))
        case Failure(e) => r == Fail(ClientFailed(e)) && Current() == old(Current())
        case Success(info) => (Current(), r) == ApplyInfo(old(Current()), sourceList, info)
    {
      var fetched := api.Info();
      if fetched.Failure? {
        return Fail(ClientFailed(fetched.error));
      }
      var info := fetched.value;
      if "vol" !in info {
        return Fail(MissingKey("vol"));
      }
      var vol := ParseInt(info["vol"]);
      if vol.None? {
        return Fail(NotAnInteger(info["vol"]));
      }
      if !VolumeFits(vol.value) {
        return Fail(VolumeOverflow(vol.value));
      }
      volumeLevel := Some(vol.value as real / 255.0);
      if "tit" !in info {
        return Fail(MissingKey("tit"));
      }
      mediaTitle := Some(info["tit"]);
      if "sts" !in info {
        return Fail(MissingKey("sts"));
      }
      state := Some(StateFor(info["sts"]));
      if "num" !in info {
        return Fail(MissingKey("num"));
      }
      var num := ParseInt(info["num"]);
      if num.None? {
        return Fail(NotAnInteger(info["num"]));
      }
      if sourceList.None? {
        return Fail(NoSourceList);
      }
      var station := Subscript(sourceList.value, num.value);
      if station.None? {
        return Fail(StationOutOfRange(num.value));
      }
      source := station;
      return Pass;
    }
  }

  // ---------------------------------------------------------------------------
  // Properties of async_update

  /** The readings async_update takes before it looks at "num". */
  predicate HasReadings(info: map<string, string>)
  {
    && "vol" in info && "tit" in info && "sts" in info
    && ParseInt(info["vol"]).Some? && VolumeFits(ParseInt(info["vol"]).value)
  }

  /**
   * Once vol, tit and sts are readable and int(vol) / 255 does not overflow, the volume is int(vol) / 255, the title is tit verbatim and
   * the state is paused exactly for "0", whether or not the source lookup that follows succeeds.
   */
  lemma UpdatedReadings(a: Attributes, sources: Option<seq<string>>, info: map<string, string>)
    requires HasReadings(info)
    ensures var after := ApplyInfo(a, sources, info).0;
      && after.volumeLevel == Some(ParseInt(info["vol"]).value as real / 255.0)
      && after.mediaTitle == Some(info["tit"])
      && (after.state == Some(Paused) <==> info["sts"] == "0")
      && (after.state == Some(Playing) <==> info["sts"] != "0")
  {
  }

  /**
   * Without readable vol, tit and sts, or with a vol too large to divide into a float,
   * async_update raises; a vol that is missing, not an integer or too large changes nothing.
   */
  lemma UpdateWithoutReadings(a: Attributes, sources: Option<seq<string>>, info: map<string, string>)
    requires !HasReadings(info)
    ensures var (after, r) := ApplyInfo(a, sources, info);
      && r.Fail?
      && after.source == a.source
      && ("vol" !in info ==> r.error == MissingKey("vol") && after == a)
      && ("vol" in info && ParseInt(info["vol"]).None? ==> r.error == NotAnInteger(info["vol"]) && after == a)
      && ("vol" in info && ParseInt(info["vol"]).Some? && !VolumeFits(ParseInt(info["vol"]).value) ==>
            r.error == VolumeOverflow(ParseInt(info["vol"]).value) && after == a)
  {
  }

  /**
   * async_update completes exactly when every reading is present, vol and num are integers, the
   * source list is set and num indexes it (a negative num from the end); the source is then the
   * station at num, and otherwise it is left as it was.
   */
  lemma UpdatedSource(a: Attributes, sources: Option<seq<string>>, info: map<string, string>)
    ensures var (after, r) := ApplyInfo(a, sources, info);
      && (r.Pass? <==>
            HasReadings(info) && "num" in info && ParseInt(info["num"]).Some? && sources.Some?
            && -|sources.value| <= ParseInt(info["num"]).value < |sources.value|)
      && (r.Pass? ==> after.source == Some(sources.value[ParseInt(info["num"]).value % |sources.value|]))
      && (r.Fail? ==> after.source == a.source)
  {
  }

  /** When every reading is there but num falls outside the list, the error names that index. */
  lemma UpdateOutOfRange(a: Attributes, list: seq<string>, info: map<string, string>)
    requires HasReadings(info) && "num" in info && ParseInt(info["num"]).Some?
    requires var num := ParseInt(info["num"]).value; num < -|list| || |list| <= num
    ensures ApplyInfo(a, Some(list), info).1 == Fail(StationOutOfRange(ParseInt(info["num"]).value))
  {
  }

  /**
   * The station select_source asks for, reported back by the radio as num in decimal, is shown
   * as the selected source again.
   */
  lemma SelectedStationReportedBack(a: Attributes, list: seq<string>, s: string, info: map<string, string>)
    requires StationOf(Some(list), Some(s)).Success?
    requires HasReadings(info)
    requires "num" in info && info["num"] == IntToString(StationOf(Some(list), Some(s)).value)
    ensures ApplyInfo(a, Some(list), info) == (ApplyInfo(a, Some(list), info).0.(source := Some(s)), Pass)
    ensures ApplyInfo(a, Some(list), info).0.source == Some(s)
  {
    var k := StationOf(Some(list), Some(s)).value;
    ParseIntOfString(k);
  }

  /** The level set_volume sends, reported back as vol, reads as the clamped level to within 1/510. */
  lemma VolumeReportedBack(a: Attributes, sources: Option<seq<string>>, info: map<string, string>, volume: real)
    requires "vol" in info && info["vol"] == IntToString(VolumeLevel(volume))
    ensures var after := ApplyInfo(a, sources, info).0;
      after.volumeLevel.Some? && Distance(after.volumeLevel.value, Clamp(volume)) <= 1.0 / 510.0
  {
    ParseIntOfString(VolumeLevel(volume));
  }
}
