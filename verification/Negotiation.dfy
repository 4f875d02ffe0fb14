/** Offer and answer: how the backend narrows an offer, and how the host checks the answer against it. */
module Negotiation {
  import opened Common
  import opened Protocol

  const MAX_MODES := 64
  const MAX_VIDEO_PROFILES := 16
  const MAX_AUDIO_PROFILES := 16
  const MAX_SAMPLE_RATES := 16
  const MAX_MANUFACTURER_NAME_BYTES := 128
  const MAX_PRODUCT_NAME_BYTES := 106
  const OPUS_SAMPLE_RATE: u32 := 48_000

  type Features = bv64

  const AUDIO: Features := 1
  const CONTROL: Features := 2

  datatype DisplayMode = DisplayMode(width: u32, height: u32, refreshMillihz: u32, flags: u32)

  datatype VideoProfile = VideoProfile(profileId: string, codec: string, maxWidth: u32, maxHeight: u32,
      maxRefreshMillihz: u32)

  datatype AudioProfile = AudioProfile(profileId: string, codec: string, maxChannels: nat, sampleRates: seq<u32>)

  datatype IdentitySource = Absent | SetupEndpoint | AuthenticatedDeviceInfo | DiscoveryAdvertisement

  datatype DisplayIdentity = DisplayIdentity(
    manufacturerName: Option<string>,
    manufacturerSource: IdentitySource,
    productName: Option<string>,
    productSource: IdentitySource,
    pnpId: Option<string>)

  datatype PreparationRequest = PreparationRequest(
    generation: u64,
    modes: seq<DisplayMode>,
    videoProfiles: seq<VideoProfile>,
    audioProfiles: seq<AudioProfile>,
    features: Features)

  datatype DeviceCapabilities = DeviceCapabilities(
    generation: u64,
    identity: DisplayIdentity,
    modes: seq<DisplayMode>,
    videoProfiles: seq<VideoProfile>,
    audioProfiles: seq<AudioProfile>,
    features: Features)

  // ----- Validation -----

  predicate ValidMode(m: DisplayMode) {
    320 <= m.width <= 7_680 && 240 <= m.height <= 4_320 && 1_000 <= m.refreshMillihz <= 240_000 && m.flags == 0
  }

  predicate ValidVideoProfile(p: VideoProfile) {
    && ValidToken(p.profileId, 128) && ValidToken(p.codec, 64)
    && 320 <= p.maxWidth <= 7_680 && 240 <= p.maxHeight <= 4_320 && 1_000 <= p.maxRefreshMillihz <= 240_000
  }

  predicate ValidRates(rates: seq<u32>) {
    0 < |rates| <= MAX_SAMPLE_RATES && Distinct(rates) && forall i :: 0 <= i < |rates| ==> 8_000 <= rates[i] <= 192_000
  }

  predicate ValidAudioProfile(p: AudioProfile) {
    ValidToken(p.profileId, 128) && ValidToken(p.codec, 64) && 1 <= p.maxChannels <= 8 && ValidRates(p.sampleRates)
  }

  predicate ValidSourced(name: Option<string>, source: IdentitySource, limit: nat) {
    if name.None? then source.Absent? else !source.Absent? && ValidText(name.value, limit)
  }

  predicate ValidDisplayIdentity(d: DisplayIdentity) {
    && ValidSourced(d.manufacturerName, d.manufacturerSource, MAX_MANUFACTURER_NAME_BYTES)
    && ValidSourced(d.productName, d.productSource, MAX_PRODUCT_NAME_BYTES)
    && (d.pnpId.Some? ==>
          && |d.pnpId.value| == 3 && (forall i :: 0 <= i < 3 ==> 'A' <= d.pnpId.value[i] <= 'Z')
          && (d.manufacturerSource.SetupEndpoint? || d.manufacturerSource.AuthenticatedDeviceInfo?))
  }

  predicate KnownFeatures(f: Features) { f & !(AUDIO | CONTROL) == 0 }

  predicate Has(f: Features, feature: Features) { f & feature != 0 }

  function VideoIds(profiles: seq<VideoProfile>): (ids: seq<string>)
    ensures |ids| == |profiles|
  {
    seq(|profiles|, i requires 0 <= i < |profiles| => profiles[i].profileId)
  }

  function AudioIds(profiles: seq<AudioProfile>): (ids: seq<string>)
    ensures |ids| == |profiles|
  {
    seq(|profiles|, i requires 0 <= i < |profiles| => profiles[i].profileId)
  }

  predicate ValidProfiles(video: seq<VideoProfile>, audio: seq<AudioProfile>) {
    && 0 < |video| <= MAX_VIDEO_PROFILES && (forall i :: 0 <= i < |video| ==> ValidVideoProfile(video[i]))
    && |audio| <= MAX_AUDIO_PROFILES && (forall i :: 0 <= i < |audio| ==> ValidAudioProfile(audio[i]))
    && Distinct(VideoIds(video)) && Distinct(AudioIds(audio))
  }

  predicate ValidModes(modes: seq<DisplayMode>) {
    0 < |modes| <= MAX_MODES && forall i :: 0 <= i < |modes| ==> ValidMode(modes[i])
  }

  predicate ValidRequest(r: PreparationRequest) {
    && r.generation != 0 && ValidModes(r.modes) && ValidProfiles(r.videoProfiles, r.audioProfiles)
    && KnownFeatures(r.features) && (Has(r.features, AUDIO) ==> r.audioProfiles != [])
  }

  predicate ValidCapabilities(c: DeviceCapabilities) {
    && c.generation != 0 && ValidDisplayIdentity(c.identity) && ValidModes(c.modes)
        && ValidProfiles(c.videoProfiles, c.audioProfiles)
    && KnownFeatures(c.features) && (Has(c.features, AUDIO) <==> c.audioProfiles != [])
  }

  /** `validate_unique_profiles`, with the set it grows. */
  method ValidateUnique(identifiers: seq<string>) returns (ok: bool)
    ensures ok <==> Distinct(identifiers)
  {
    var seen: set<string> := {};
    for i := 0 to |identifiers|
      invariant seen == set j | 0 <= j < i :: identifiers[j]
      invariant Distinct(identifiers[..i])
    {
      if identifiers[i] in seen {
        var j :| 0 <= j < i && identifiers[j] == identifiers[i];
        return false;
      }
      seen := seen + {identifiers[i]};
    }
    assert identifiers[..|identifiers|] == identifiers;
    return true;
  }

  /** The sample-rate check of an audio profile. */
  method ValidateRates(rates: seq<u32>) returns (ok: bool)
    ensures ok <==> ValidRates(rates)
  {
    if |rates| > MAX_SAMPLE_RATES || |rates| == 0 { return false; }
    var seen: set<u32> := {};
    for i := 0 to |rates|
      invariant seen == set j | 0 <= j < i :: rates[j]
      invariant Distinct(rates[..i]) && forall j :: 0 <= j < i ==> 8_000 <= rates[j] <= 192_000
    {
      if !(8_000 <= rates[i] <= 192_000) { return false; }
      if rates[i] in seen {
        var j :| 0 <= j < i && rates[j] == rates[i];
        return false;
      }
      seen := seen + {rates[i]};
    }
    assert rates[..|rates|] == rates;
    return true;
  }

  // ----- The backend's answer -----

  predicate SupportedMode(m: DisplayMode) {
    m.flags == 0 && (m.width, m.height, m.refreshMillihz) in {
      (3_840, 2_160, 30_000), (2_560, 1_440, 60_000), (1_920, 1_080, 60_000), (1_600, 900, 60_000),
      (1_366, 768, 60_000), (1_280, 720, 60_000), (640, 480, 60_000)}
  }

  /** `filter`. */
  function Kept<T>(s: seq<T>, p: T -> bool): seq<T> {
    if s == [] then [] else (if p(s[0]) then [s[0]] else []) + Kept(s[1..], p)
  }

  function SupportedModes(modes: seq<DisplayMode>): seq<DisplayMode> { Kept(modes, SupportedMode) }

  function NarrowH264(p: VideoProfile): VideoProfile {
    p.(maxWidth := Min(p.maxWidth, 3_840), maxHeight := Min(p.maxHeight, 2_160), maxRefreshMillihz :=
        Min(p.maxRefreshMillihz, 60_000))
  }

  predicate IsH264(p: VideoProfile) { p.codec == "h264" }

  predicate CarriesStereoOpus(p: AudioProfile) { p.codec == "opus" && p.maxChannels >= 2
      && OPUS_SAMPLE_RATE in p.sampleRates }

  const OPUS_STEREO := AudioProfile("opus-stereo", "opus", 2, [OPUS_SAMPLE_RATE])

  ghost predicate FirstH264(profiles: seq<VideoProfile>, i: int) {
    0 <= i < |profiles| && IsH264(profiles[i]) && forall j :: 0 <= j < i ==> !IsH264(profiles[j])
  }

  /** At most one profile: the first that fits, narrowed. */
  function NarrowedVideo(profiles: seq<VideoProfile>): (r: seq<VideoProfile>)
    ensures r == [] <==> forall i :: 0 <= i < |profiles| ==> !IsH264(profiles[i])
    ensures r != [] ==> |r| == 1 && exists i :: FirstH264(profiles, i) && r[0] == NarrowH264(profiles[i])
  {
    if profiles == [] then []
    else if IsH264(profiles[0]) then assert FirstH264(profiles, 0); [NarrowH264(profiles[0])]
    else
      var r := NarrowedVideo(profiles[1..]);
      assert forall i :: 0 < i < |profiles| ==> profiles[i] == profiles[1..][i - 1];
      assert forall i :: FirstH264(profiles[1..], i) ==> FirstH264(profiles, i + 1);
      r
  }

  function NarrowedAudio(profiles: seq<AudioProfile>): (r: seq<AudioProfile>)
    ensures r == if exists i :: 0 <= i < |profiles| && CarriesStereoOpus(profiles[i]) then [OPUS_STEREO] else []
  {
    if profiles == [] then []
    else if CarriesStereoOpus(profiles[0]) then [OPUS_STEREO]
    else
      var r := NarrowedAudio(profiles[1..]);
      assert forall i :: 0 < i < |profiles| ==> profiles[i] == profiles[1..][i - 1];
      r
  }

  datatype NegotiationError = NoSupportedMode | NoSupportedVideoProfile | NoSupportedAudioProfile | InvalidAnswer

  function Granted(f: Features): Features {
    (if Has(f, AUDIO) then AUDIO else 0) | (if Has(f, CONTROL) then CONTROL else 0)
  }

  function Answer(r: PreparationRequest, identity: DisplayIdentity): DeviceCapabilities {
    DeviceCapabilities(r.generation, identity, SupportedModes(r.modes), NarrowedVideo(r.videoProfiles),
                       if Has(r.features, AUDIO) then NarrowedAudio(r.audioProfiles) else [], Granted(r.features))
  }

  /** `negotiate_capabilities`. */
  function NegotiateCapabilities(r: PreparationRequest, identity: DisplayIdentity): Result<DeviceCapabilities,
      NegotiationError> {
    var c := Answer(r, identity);
    if c.modes == [] then Err(NoSupportedMode)
    else if c.videoProfiles == [] then Err(NoSupportedVideoProfile)
    else if Has(r.features, AUDIO) && c.audioProfiles == [] then Err(NoSupportedAudioProfile)
    else if !ValidCapabilities(c) then Err(InvalidAnswer)
    else Ok(c)
  }

  // ----- The host's check -----

  datatype OfferError =
    | OutsideFeatures | OutsideModes | UnknownVideoProfile | VideoLimits | UnknownAudioProfile | AudioLimits

  function FindVideo(profiles: seq<VideoProfile>, id: string): (r: Option<VideoProfile>) {
    if profiles == [] then None else if profiles[0].profileId == id then Some(profiles[0])
        else FindVideo(profiles[1..], id)
  }

  function FindAudio(profiles: seq<AudioProfile>, id: string): (r: Option<AudioProfile>) {
    if profiles == [] then None else if profiles[0].profileId == id then Some(profiles[0])
        else FindAudio(profiles[1..], id)
  }

  function CheckVideo(offered: seq<VideoProfile>, returned: seq<VideoProfile>): Option<OfferError> {
    if returned == [] then None
    else
      var p, found := returned[0], FindVideo(offered, returned[0].profileId);
      if found.None? then Some(UnknownVideoProfile)
      else
        var o := found.value;
        if p.codec != o.codec || p.maxWidth > o.maxWidth || p.maxHeight > o.maxHeight
            || p.maxRefreshMillihz > o.maxRefreshMillihz
        then Some(VideoLimits)
        else CheckVideo(offered, returned[1..])
  }

  predicate Offers(offered: seq<u32>, rates: seq<u32>) {
    forall i :: 0 <= i < |rates| ==> rates[i] in offered
  }

  function CheckAudio(offered: seq<AudioProfile>, returned: seq<AudioProfile>): Option<OfferError> {
    if returned == [] then None
    else
      var p, found := returned[0], FindAudio(offered, returned[0].profileId);
      if found.None? then Some(UnknownAudioProfile)
      else
        var o := found.value;
        if p.codec != o.codec || p.maxChannels > o.maxChannels || !Offers(o.sampleRates, p.sampleRates)
        then Some(AudioLimits)
        else CheckAudio(offered, returned[1..])
  }

  /** `validate_capabilities_against_offer`. */
  function CheckAgainstOffer(offer: PreparationRequest, c: DeviceCapabilities): Result<Unit, OfferError> {
    if c.features & !offer.features != 0 then Err(OutsideFeatures)
    else if exists i :: 0 <= i < |c.modes| && c.modes[i] !in offer.modes then Err(OutsideModes)
    else
      match CheckVideo(offer.videoProfiles, c.videoProfiles)
      case Some(error) => Err(error)
      case None =>
        match CheckAudio(offer.audioProfiles, c.audioProfiles)
        case Some(error) => Err(error)
        case None => Ok(Unit)
  }

  // ----- The two ends agree, but for one renamed profile -----

  lemma {:induction false} KeptMembers<T>(s: seq<T>, p: T -> bool, x: T)
    ensures x in Kept(s, p) <==> x in s && p(x)
  {
    if s == [] {
    } else {
      KeptMembers(s[1..], p, x);
      assert s == [s[0]] + s[1..];
    }
  }

  lemma {:induction false} KeptLength<T>(s: seq<T>, p: T -> bool)
    ensures |Kept(s, p)| <= |s|
  {
    if s == [] {
    } else {
      KeptLength(s[1..], p);
    }
  }

  /** `at` lists, in order, the positions of the elements that are kept. */
  ghost predicate Positions<T(!new)>(s: seq<T>, p: T -> bool, kept: seq<T>, at: seq<nat>) {
    && |at| == |kept|
    && (forall i, j :: 0 <= i < j < |at| ==> at[i] < at[j])
    && (forall k :: 0 <= k < |at| ==> at[k] < |s| && kept[k] == s[at[k]])
    && (forall i :: 0 <= i < |s| ==> (p(s[i]) <==> i in at))
  }

  lemma PositionsShift<T(!new)>(s: seq<T>, p: T -> bool, kept: seq<T>, at: seq<nat>, shifted: seq<nat>)
    requires s != [] && !p(s[0]) && Positions(s[1..], p, kept, at)
    requires |shifted| == |at| && forall k :: 0 <= k < |at| ==> shifted[k] == at[k] + 1
    ensures Positions(s, p, kept, shifted)
  {
    forall i | 0 <= i < |s| ensures p(s[i]) <==> i in shifted {
      if i > 0 {
        assert s[i] == s[1..][i - 1];
        Shifted(at, shifted, i);
      }
    }
  }

  lemma PositionsPrepend<T(!new)>(s: seq<T>, p: T -> bool, kept: seq<T>, at: seq<nat>, shifted: seq<nat>)
    requires s != [] && p(s[0]) && Positions(s[1..], p, kept, at)
    requires |shifted| == |at| && forall k :: 0 <= k < |at| ==> shifted[k] == at[k] + 1
    ensures Positions(s, p, [s[0]] + kept, [0] + shifted)
  {
    var all, places := [s[0]] + kept, [0] + shifted;
    forall k | 0 <= k < |places| ensures places[k] < |s| && all[k] == s[places[k]] {
      assert k > 0 ==> places[k] == at[k - 1] + 1 && all[k] == kept[k - 1];
    }
    forall i | 0 <= i < |s| ensures p(s[i]) <==> i in places {
      if i > 0 {
        assert s[i] == s[1..][i - 1];
        Shifted(at, shifted, i);
      }
    }
  }

  lemma Shifted(at: seq<nat>, shifted: seq<nat>, i: nat)
    requires |shifted| == |at| && forall k :: 0 <= k < |at| ==> shifted[k] == at[k] + 1
    ensures i in shifted <==> i - 1 in at
  {
    if i - 1 in at {
      var k :| 0 <= k < |at| && at[k] == i - 1;
      assert shifted[k] == i;
    }
  }

  lemma {:induction false} KeptInOrder<T(!new)>(s: seq<T>, p: T -> bool) returns (at: seq<nat>)
    ensures Positions(s, p, Kept(s, p), at)
  {
    if s == [] {
      at := [];
    } else {
      var tail := KeptInOrder(s[1..], p);
      var shifted := seq(|tail|, k requires 0 <= k < |tail| => tail[k] + 1);
      if p(s[0]) {
        at := [0] + shifted;
        PositionsPrepend(s, p, Kept(s[1..], p), tail, shifted);
      } else {
        at := shifted;
        PositionsShift(s, p, Kept(s[1..], p), tail, shifted);
      }
    }
  }

  /** The answered modes are the supported ones of the offer, each where it stood, in the offer's order. */
  lemma SupportedModesInOrder(modes: seq<DisplayMode>) returns (at: seq<nat>)
    ensures Positions(modes, SupportedMode, SupportedModes(modes), at)
  {
    at := KeptInOrder(modes, SupportedMode);
  }

  lemma GrantedWithin(f: Features)
    ensures Granted(f) & !f == 0 && KnownFeatures(Granted(f)) && (Has(Granted(f), AUDIO) <==> Has(f, AUDIO))
  {
  }

  /** With unique identifiers, looking an identifier up finds the profile that carries it. */
  lemma {:induction false} FindUniqueVideo(profiles: seq<VideoProfile>, i: nat)
    requires i < |profiles| && Distinct(VideoIds(profiles))
    ensures FindVideo(profiles, profiles[i].profileId) == Some(profiles[i])
  {
    if i == 0 {
    } else {
      assert VideoIds(profiles)[0] != VideoIds(profiles)[i];
      assert VideoIds(profiles[1..]) == VideoIds(profiles)[1..];
      FindUniqueVideo(profiles[1..], i - 1);
    }
  }

  lemma {:induction false} FindUniqueAudio(profiles: seq<AudioProfile>, i: nat)
    requires i < |profiles| && Distinct(AudioIds(profiles))
    ensures FindAudio(profiles, profiles[i].profileId) == Some(profiles[i])
  {
    if i == 0 {
    } else {
      assert AudioIds(profiles)[0] != AudioIds(profiles)[i];
      assert AudioIds(profiles[1..]) == AudioIds(profiles)[1..];
      FindUniqueAudio(profiles[1..], i - 1);
    }
  }

  lemma {:induction false} FoundAudio(profiles: seq<AudioProfile>, id: string)
    ensures FindAudio(profiles, id).Some? ==>
              exists i :: 0 <= i < |profiles| && profiles[i].profileId == id
                  && FindAudio(profiles, id).value == profiles[i]
  {
    if profiles != [] && profiles[0].profileId != id {
      FoundAudio(profiles[1..], id);
      assert forall i :: 0 < i < |profiles| ==> profiles[i] == profiles[1..][i - 1];
    }
  }

  lemma VideoWithinOffer(profiles: seq<VideoProfile>)
    requires Distinct(VideoIds(profiles))
    ensures CheckVideo(profiles, NarrowedVideo(profiles)).None?
  {
    var r := NarrowedVideo(profiles);
    if r != [] {
      var i :| FirstH264(profiles, i) && r[0] == NarrowH264(profiles[i]);
      FindUniqueVideo(profiles, i);
      assert r[1..] == [];
    }
  }

  /** The offer names a profile `opus-stereo` that can carry what the backend means by it. */
  ghost predicate OffersOpusStereo(profiles: seq<AudioProfile>) {
    exists i :: 0 <= i < |profiles| && profiles[i].profileId == "opus-stereo" && CarriesStereoOpus(profiles[i])
  }

  lemma AudioWithinOffer(profiles: seq<AudioProfile>)
    requires Distinct(AudioIds(profiles))
    ensures CheckAudio(profiles, [OPUS_STEREO]).None? <==> OffersOpusStereo(profiles)
  {
    var found := FindAudio(profiles, "opus-stereo");
    FoundAudio(profiles, "opus-stereo");
    assert [OPUS_STEREO][1..] == [];
    assert OPUS_STEREO.sampleRates[0] == OPUS_SAMPLE_RATE;
    if OffersOpusStereo(profiles) {
      var i :| 0 <= i < |profiles| && profiles[i].profileId == "opus-stereo" && CarriesStereoOpus(profiles[i]);
      FindUniqueAudio(profiles, i);
    }
  }

  /**
   * The host accepts the backend's answer exactly when audio was not asked for, or the offer has the profile named in
   * it.
   */
  lemma NegotiationSound(r: PreparationRequest, identity: DisplayIdentity)
    requires ValidRequest(r) && NegotiateCapabilities(r, identity).Ok?
    ensures CheckAgainstOffer(r, NegotiateCapabilities(r, identity).value).Ok? <==>
              !Has(r.features, AUDIO) || OffersOpusStereo(r.audioProfiles)
  {
    var c := Answer(r, identity);
    GrantedWithin(r.features);
    forall i | 0 <= i < |c.modes| ensures c.modes[i] in r.modes { KeptMembers(r.modes, SupportedMode, c.modes[i]); }
    VideoWithinOffer(r.videoProfiles);
    AudioWithinOffer(r.audioProfiles);
  }

  // ----- When the backend has an answer -----

  lemma NarrowedValid(p: VideoProfile)
    requires ValidVideoProfile(p)
    ensures ValidVideoProfile(NarrowH264(p))
  {
  }

  lemma {:induction false} LengthOfAscii(s: string)
    requires forall i :: 0 <= i < |s| ==> s[i] as int < 0x80
    ensures Utf8Length(s) == |s|
  {
    if s == [] {
    } else {
      LengthOfAscii(s[1..]);
    }
  }

  predicate Plain(c: char) { 'a' <= c <= 'z' || '0' <= c <= '9' || c == '-' }

  lemma PlainToken(s: string, limit: nat)
    requires 0 < |s| <= limit && forall i :: 0 <= i < |s| ==> Plain(s[i])
    ensures ValidToken(s, limit)
  {
    LengthOfAscii(s);
  }

  lemma StereoTokens(p: AudioProfile)
    requires p.profileId == "opus-stereo" && p.codec == "opus"
    ensures ValidToken(p.profileId, 128) && ValidToken(p.codec, 64)
  {
    assert forall i :: 0 <= i < |p.profileId| ==> Plain(p.profileId[i]);
    assert forall i :: 0 <= i < |p.codec| ==> Plain(p.codec[i]);
    PlainToken(p.profileId, 128);
    PlainToken(p.codec, 64);
  }

  lemma OpusStereoValid()
    ensures ValidAudioProfile(OPUS_STEREO)
  {
    StereoTokens(OPUS_STEREO);
  }

  lemma SingleProfilesValid(video: seq<VideoProfile>, audio: seq<AudioProfile>)
    requires |video| == 1 && ValidVideoProfile(video[0]) && |audio| <= 1
               && (audio != [] ==> ValidAudioProfile(audio[0]))
    ensures ValidProfiles(video, audio)
  {
  }

  lemma SupportedModesValid(modes: seq<DisplayMode>)
    requires ValidModes(modes) && SupportedModes(modes) != []
    ensures ValidModes(SupportedModes(modes))
  {
    KeptLength(modes, SupportedMode);
    var r := SupportedModes(modes);
    forall i | 0 <= i < |r| ensures ValidMode(r[i]) { KeptMembers(modes, SupportedMode, r[i]); }
  }

  lemma NarrowedVideoValid(profiles: seq<VideoProfile>)
    requires NarrowedVideo(profiles) != [] && forall i :: 0 <= i < |profiles| ==> ValidVideoProfile(profiles[i])
    ensures |NarrowedVideo(profiles)| == 1 && ValidVideoProfile(NarrowedVideo(profiles)[0])
  {
    var i :| FirstH264(profiles, i) && NarrowedVideo(profiles)[0] == NarrowH264(profiles[i]);
    NarrowedValid(profiles[i]);
  }

  lemma AnswerValid(r: PreparationRequest, identity: DisplayIdentity)
    requires ValidRequest(r) && ValidDisplayIdentity(identity)
    requires var c := Answer(r, identity);
               c.modes != [] && c.videoProfiles != [] && (Has(r.features, AUDIO) ==> c.audioProfiles != [])
    ensures ValidCapabilities(Answer(r, identity))
  {
    var c := Answer(r, identity);
    GrantedWithin(r.features);
    SupportedModesValid(r.modes);
    NarrowedVideoValid(r.videoProfiles);
    OpusStereoValid();
    SingleProfilesValid(c.videoProfiles, c.audioProfiles);
  }

  /**
   * For a valid offer the backend has an answer exactly when it supports a mode, a codec and, if asked for, the
   * audio.
   */
  lemma NegotiationComplete(r: PreparationRequest, identity: DisplayIdentity)
    requires ValidRequest(r) && ValidDisplayIdentity(identity)
    ensures NegotiateCapabilities(r, identity).Ok? <==>
              && (exists i :: 0 <= i < |r.modes| && SupportedMode(r.modes[i]))
              && (exists i :: 0 <= i < |r.videoProfiles| && IsH264(r.videoProfiles[i]))
              && (Has(r.features, AUDIO) ==>
                  exists i :: 0 <= i < |r.audioProfiles| && CarriesStereoOpus(r.audioProfiles[i]))
  {
    var c := Answer(r, identity);
    if c.modes != [] {
      KeptMembers(r.modes, SupportedMode, c.modes[0]);
      var i :| 0 <= i < |r.modes| && r.modes[i] == c.modes[0];
      assert SupportedMode(r.modes[i]);
      if c.videoProfiles != [] && (Has(r.features, AUDIO) ==> c.audioProfiles != []) { AnswerValid(r, identity); }
    } else {
      forall i | 0 <= i < |r.modes|
          ensures !SupportedMode(r.modes[i]) { KeptMembers(r.modes, SupportedMode, r.modes[i]); }
    }
  }

  /** An answer holds the supported modes of the offer, its first H.264 profile up to 2160p60, and Opus stereo. */
  lemma AnswerExactly(r: PreparationRequest, identity: DisplayIdentity)
    requires NegotiateCapabilities(r, identity).Ok?
    ensures var c := NegotiateCapabilities(r, identity).value;
            && c.generation == r.generation && c.identity == identity
            && (forall m :: m in c.modes <==> m in r.modes && SupportedMode(m))
            && |c.videoProfiles| == 1
            && (exists i ::
                  && FirstH264(r.videoProfiles, i)
                  && c.videoProfiles[0] == r.videoProfiles[i].(
                       maxWidth := Min(r.videoProfiles[i].maxWidth, 3_840),
                       maxHeight := Min(r.videoProfiles[i].maxHeight, 2_160),
                       maxRefreshMillihz := Min(r.videoProfiles[i].maxRefreshMillihz, 60_000)))
            && c.audioProfiles == (if Has(r.features, AUDIO)
                                   then [AudioProfile("opus-stereo", "opus", 2, [48_000])] else [])
            && KnownFeatures(c.features) && (Has(c.features, AUDIO) <==> Has(r.features, AUDIO))
            && (Has(c.features, CONTROL) <==> Has(r.features, CONTROL))
  {
    var c := Answer(r, identity);
    GrantedWithin(r.features);
    forall m ensures m in c.modes <==> m in r.modes && SupportedMode(m) { KeptMembers(r.modes, SupportedMode, m); }
    var i :| FirstH264(r.videoProfiles, i) && c.videoProfiles[0] == NarrowH264(r.videoProfiles[i]);
  }

  // ----- What the host accepts -----

  /** The profile of that name, with that codec and no lower limits. */
  ghost predicate VideoCovers(o: VideoProfile, p: VideoProfile) {
    && o.profileId == p.profileId && o.codec == p.codec
    && p.maxWidth <= o.maxWidth && p.maxHeight <= o.maxHeight && p.maxRefreshMillihz <= o.maxRefreshMillihz
  }

  ghost predicate AudioCovers(o: AudioProfile, p: AudioProfile) {
    && o.profileId == p.profileId && o.codec == p.codec && p.maxChannels <= o.maxChannels
    && forall rate :: rate in p.sampleRates ==> rate in o.sampleRates
  }

  lemma {:induction false} FoundVideo(profiles: seq<VideoProfile>, id: string)
    ensures FindVideo(profiles, id).Some? ==>
              exists i :: 0 <= i < |profiles| && profiles[i].profileId == id
                  && FindVideo(profiles, id).value == profiles[i]
  {
    if profiles != [] && profiles[0].profileId != id {
      FoundVideo(profiles[1..], id);
      assert forall i :: 0 < i < |profiles| ==> profiles[i] == profiles[1..][i - 1];
    }
  }

  ghost predicate VideoCovered(offered: seq<VideoProfile>, p: VideoProfile) {
    exists j :: 0 <= j < |offered| && VideoCovers(offered[j], p)
  }

  ghost predicate AudioCovered(offered: seq<AudioProfile>, p: AudioProfile) {
    exists j :: 0 <= j < |offered| && AudioCovers(offered[j], p)
  }

  lemma CoveredVideo(offered: seq<VideoProfile>, p: VideoProfile)
    requires Distinct(VideoIds(offered))
    ensures VideoCovered(offered, p) <==>
              FindVideo(offered, p.profileId).Some? && VideoCovers(FindVideo(offered, p.profileId).value, p)
  {
    FoundVideo(offered, p.profileId);
    if VideoCovered(offered, p) {
      var j :| 0 <= j < |offered| && VideoCovers(offered[j], p);
      FindUniqueVideo(offered, j);
    }
  }

  lemma CoveredAudio(offered: seq<AudioProfile>, p: AudioProfile)
    requires Distinct(AudioIds(offered))
    ensures AudioCovered(offered, p) <==>
              FindAudio(offered, p.profileId).Some? && AudioCovers(FindAudio(offered, p.profileId).value, p)
  {
    FoundAudio(offered, p.profileId);
    if AudioCovered(offered, p) {
      var j :| 0 <= j < |offered| && AudioCovers(offered[j], p);
      FindUniqueAudio(offered, j);
    }
  }

  lemma {:induction false} CheckVideoExactly(offered: seq<VideoProfile>, returned: seq<VideoProfile>)
    requires Distinct(VideoIds(offered))
    ensures CheckVideo(offered, returned).None? <==>
              forall i :: 0 <= i < |returned| ==> VideoCovered(offered, returned[i])
  {
    if returned == [] {
    } else {
      CheckVideoExactly(offered, returned[1..]);
      CoveredVideo(offered, returned[0]);
      FoundVideo(offered, returned[0].profileId);
      var rest := returned[1..];
      assert forall i :: 0 < i < |returned| ==> returned[i] == rest[i - 1];
      assert forall i :: 0 <= i < |rest| ==> rest[i] == returned[i + 1];
    }
  }

  lemma {:induction false} CheckAudioExactly(offered: seq<AudioProfile>, returned: seq<AudioProfile>)
    requires Distinct(AudioIds(offered))
    ensures CheckAudio(offered, returned).None? <==>
              forall i :: 0 <= i < |returned| ==> AudioCovered(offered, returned[i])
  {
    if returned == [] {
    } else {
      CheckAudioExactly(offered, returned[1..]);
      CoveredAudio(offered, returned[0]);
      FoundAudio(offered, returned[0].profileId);
      var rest := returned[1..];
      assert forall i :: 0 < i < |returned| ==> returned[i] == rest[i - 1];
      assert forall i :: 0 <= i < |rest| ==> rest[i] == returned[i + 1];
    }
  }

  /** The host accepts an answer if and only if every feature, mode and profile in it is covered by the offer. */
  lemma AcceptedExactly(offer: PreparationRequest, c: DeviceCapabilities)
    requires ValidRequest(offer)
    ensures CheckAgainstOffer(offer, c).Ok? <==>
              && c.features & !offer.features == 0 && (forall m :: m in c.modes ==> m in offer.modes)
              && (forall i :: 0 <= i < |c.videoProfiles| ==> VideoCovered(offer.videoProfiles, c.videoProfiles[i]))
              && (forall i :: 0 <= i < |c.audioProfiles| ==> AudioCovered(offer.audioProfiles, c.audioProfiles[i]))
  {
    CheckVideoExactly(offer.videoProfiles, c.videoProfiles);
    CheckAudioExactly(offer.audioProfiles, c.audioProfiles);
  }

  const RENAMED := PreparationRequest(
    1, [DisplayMode(1_280, 720, 60_000, 0)], [VideoProfile("v", "h264", 1_280, 720, 60_000)],
    [AudioProfile("opus", "opus", 2, [OPUS_SAMPLE_RATE])], AUDIO)

  lemma RenamedValid()
    ensures ValidRequest(RENAMED)
  {
    PlainToken("v", 128);
    PlainToken("h264", 64);
    PlainToken("opus", 128);
    PlainToken("opus", 64);
    SingleProfilesValid(RENAMED.videoProfiles, RENAMED.audioProfiles);
  }

  /** An offer the backend answers and the host then refuses: its stereo profile goes by another name. */
  lemma RenamedProfileRefused(identity: DisplayIdentity)
    requires ValidDisplayIdentity(identity)
    ensures ValidRequest(RENAMED) && NegotiateCapabilities(RENAMED, identity).Ok?
    ensures CheckAgainstOffer(RENAMED, NegotiateCapabilities(RENAMED, identity).value).Err?
  {
    RenamedValid();
    assert SupportedMode(RENAMED.modes[0]) && IsH264(RENAMED.videoProfiles[0])
        && CarriesStereoOpus(RENAMED.audioProfiles[0]);
    NegotiationComplete(RENAMED, identity);
    NegotiationSound(RENAMED, identity);
    assert Has(RENAMED.features, AUDIO);
    assert !OffersOpusStereo(RENAMED.audioProfiles) by { assert |"opus"| != |"opus-stereo"|; }
  }
}
