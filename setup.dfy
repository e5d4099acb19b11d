/**
 * Setting up the output: the command line of main and the encoder parameters
 * that add_stream chooses for a new audio or video stream.
 */
module Setup {
  import opened Results
  import opened Timestamps
  import opened Stream

  /** The sample rate add_stream prefers when the encoder supports it. */
  const PreferredSampleRate := 44100
  /** AV_CH_LAYOUT_STEREO: front left and front right. */
  const ChannelLayoutStereo := 3
  /** AV_SAMPLE_FMT_FLTP, the sample format used when the encoder lists none. */
  const SampleFormatFltp := 8
  /** AV_PIX_FMT_YUV420P, the STREAM_PIX_FMT of every video stream. */
  const PixelFormatYuv420p := 0
  /** AV_CODEC_ID_MPEG1VIDEO and AV_CODEC_ID_MPEG2VIDEO. */
  const CodecMpeg1Video := 1
  const CodecMpeg2Video := 2
  /** AVFMT_GLOBALHEADER in the output format's flags. */
  const FormatGlobalHeader: bv32 := 0x40

  /**
   * The length of a zero-terminated list: the index of its first 0.
   */
  function Terminator(list: seq<int>): (n: nat)
    requires 0 in list
    ensures n < |list| && list[n] == 0
    ensures forall k :: 0 <= k < n ==> list[k] != 0
  {
    if list[0] == 0 then 0 else 1 + Terminator(list[1..])
  }

  /** The entries of a zero-terminated list, without the terminator. */
  function Entries(list: seq<int>): (r: seq<int>)
    requires 0 in list
    ensures 0 !in r
    ensures |r| < |list| && r == list[..|r|] && list[|r|] == 0
  {
    list[..Terminator(list)]
  }

  /**
   * The value add_stream settles on for a parameter with a preferred value:
   * the preferred value when the encoder gives no list or lists it, and the
   * list's first element otherwise.
   */
  function Preference(supported: Option<seq<int>>, preferred: int): int
    requires supported.Some? ==> 0 in supported.value
  {
    match supported
    case None => preferred
    case Some(list) => if preferred in Entries(list) then preferred else list[0]
  }

  /** The chosen value is one the encoder supports, whenever it lists any. */
  lemma PreferenceSupported(supported: Option<seq<int>>, preferred: int)
    requires supported.Some? ==> 0 in supported.value
    ensures supported.Some? && |Entries(supported.value)| > 0 ==>
      Preference(supported, preferred) in Entries(supported.value)
  {
  }

  /**
   * The preferred value is chosen exactly when the encoder gives no list,
   * lists it, or starts its list with it.
   */
  lemma PreferenceIsPreferred(supported: Option<seq<int>>, preferred: int)
    requires supported.Some? ==> 0 in supported.value
    ensures Preference(supported, preferred) == preferred <==>
      supported.None? || preferred in Entries(supported.value) || supported.value[0] == preferred
  {
  }

  /**
   * The scan of a zero-terminated list of supported values: start from the
   * preferred value, take the list's first entry when there is a list, and
   * switch back to the preferred value on meeting it before the terminator.
   */
  method Prefer(supported: Option<seq<int>>, preferred: int) returns (chosen: int)
    requires supported.Some? ==> 0 in supported.value
    ensures chosen == Preference(supported, preferred)
  {
    chosen := preferred;
    if supported.Some? {
      var list := supported.value;
      chosen := list[0];
      var i := 0;
      while list[i] != 0
        invariant 0 <= i <= Terminator(list)
        invariant chosen == if preferred in list[..i] then preferred else list[0]
        decreases Terminator(list) - i
      {
        assert list[..i + 1] == list[..i] + [list[i]];
        if list[i] == preferred {
          chosen := preferred;
        }
        i := i + 1;
      }
      assert list[..i] == Entries(list);
    }
  }

  /** What an encoder says about itself: its media type and its lists of supported values. */
  datatype MediaType = AudioMedia | VideoMedia | OtherMedia

  datatype Encoder = Encoder(
    mediaType: MediaType,
    sampleFormats: Option<seq<int>>,
    sampleRates: Option<seq<int>>,
    channelLayouts: Option<seq<int>>)

  /** The encoder's lists are well formed: sample formats non-empty, rates and layouts zero-terminated. */
  predicate WellFormed(e: Encoder)
  {
    && (e.sampleFormats.Some? ==> |e.sampleFormats.value| > 0)
    && (e.sampleRates.Some? ==> 0 in e.sampleRates.value)
    && (e.channelLayouts.Some? ==> 0 in e.channelLayouts.value)
  }

  /**
   * The parameters add_stream gives the encoder context and the stream. A
   * field it leaves at the library's default is None.
   */
  datatype Settings =
    | AudioSettings(sampleFormat: int, bitRate: int, sampleRate: int, channelLayout: int, timeBase: Rational)
    | VideoSettings(
        codecId: int, bitRate: int, width: int, height: int, timeBase: Rational, gopSize: int,
        pixelFormat: int, maxBFrames: Option<int>, mbDecision: Option<int>)
    | OtherSettings

  /** A stream added to the output: its id in the format context, its parameters and the global-header flag. */
  datatype AddedStream = AddedStream(id: int, settings: Settings, globalHeader: bool)

  /**
   * add_stream: without an encoder for the codec id there is no stream;
   * otherwise the new stream is numbered after the existing ones, audio gets
   * the preferred rate and layout (stereo) when supported and the time base
   * 1/sample_rate, video gets 352x288 at time base 1/25, and the encoder
   * writes global headers exactly when the format asks for them.
   */
  method AddStream(encoder: Option<Encoder>, codecId: int, streamCount: nat, formatFlags: bv32)
    returns (r: Result<AddedStream>)
    requires encoder.Some? ==> WellFormed(encoder.value)
    ensures encoder.None? <==> r.Failure?
    ensures r.Success? ==>
      var e := encoder.value;
      var st := r.value;
      && st.id == streamCount
      && st.globalHeader == (formatFlags & FormatGlobalHeader != 0)
      && (st.settings.AudioSettings? <==> e.mediaType == AudioMedia)
      && (st.settings.VideoSettings? <==> e.mediaType == VideoMedia)
      && (st.settings.AudioSettings? ==>
            && st.settings.sampleFormat == (if e.sampleFormats.Some? then e.sampleFormats.value[0] else SampleFormatFltp)
            && st.settings.bitRate == 64000
            && st.settings.sampleRate == Preference(e.sampleRates, PreferredSampleRate)
            && st.settings.channelLayout == Preference(e.channelLayouts, ChannelLayoutStereo)
            && st.settings.timeBase == Rational(1, st.settings.sampleRate))
      && (st.settings.VideoSettings? ==>
            && st.settings.codecId == codecId
            && st.settings.bitRate == 400000
            && st.settings.width == 352 && st.settings.height == 288
            && st.settings.timeBase == Rational(1, StreamFrameRate)
            && st.settings.gopSize == 12
            && st.settings.pixelFormat == PixelFormatYuv420p
            && (st.settings.maxBFrames.Some? <==> codecId == CodecMpeg2Video)
            && (st.settings.maxBFrames.Some? ==> st.settings.maxBFrames.value == 2)
            && (st.settings.mbDecision.Some? <==> codecId == CodecMpeg1Video)
            && (st.settings.mbDecision.Some? ==> st.settings.mbDecision.value == 2))
  {
    if encoder.None? {
      return Failure("Could not find encoder");
    }
    var e := encoder.value;
    var settings: Settings;
    match e.mediaType {
      case AudioMedia =>
        var sampleFormat := if e.sampleFormats.Some? then e.sampleFormats.value[0] else SampleFormatFltp;
        var sampleRate := Prefer(e.sampleRates, PreferredSampleRate);
        var layout := Prefer(e.channelLayouts, ChannelLayoutStereo);
        settings := AudioSettings(sampleFormat, 64000, sampleRate, layout, Rational(1, sampleRate));
      case VideoMedia =>
        var maxBFrames := if codecId == CodecMpeg2Video then Some(2) else None;
        var mbDecision := if codecId == CodecMpeg1Video then Some(2) else None;
        settings := VideoSettings(codecId, 400000, 352, 288, Rational(1, StreamFrameRate), 12,
                                  PixelFormatYuv420p, maxBFrames, mbDecision);
      case OtherMedia =>
        settings := OtherSettings;
    }
    r := Success(AddedStream(streamCount, settings, formatFlags & FormatGlobalHeader != 0));
  }

  /**
   * An audio stream's time base is a positive rational as the muxing loop
   * needs, unless the encoder's rate list is empty (its first entry is then
   * the terminator, and the rate 0).
   */
  lemma AudioTimeBasePositive(e: Encoder)
    requires WellFormed(e)
    requires e.sampleRates.Some? ==> forall k :: 0 <= k < |e.sampleRates.value| ==> e.sampleRates.value[k] >= 0
    ensures var rate := Preference(e.sampleRates, PreferredSampleRate);
      Positive(Rational(1, rate)) <==> e.sampleRates.None? || |Entries(e.sampleRates.value)| > 0
  {
    if e.sampleRates.Some? {
      var list := e.sampleRates.value;
      if |Entries(list)| > 0 {
        PreferenceSupported(e.sampleRates, PreferredSampleRate);
        var rate := Preference(e.sampleRates, PreferredSampleRate);
        var k :| 0 <= k < |Entries(list)| && Entries(list)[k] == rate;
        assert list[k] == rate && rate != 0;
      } else {
        assert Terminator(list) == 0;
      }
    }
  }

  /** "-flags" and "-fflags": the options main hands to the muxer and encoders. */
  predicate IsFlagOption(arg: string)
  {
    arg == "-flags" || arg == "-fflags"
  }

  /** The number of argument pairs main scans after the file name: argv[2..3], argv[4..5], ... */
  function PairCount(argv: seq<string>): (n: nat)
    ensures |argv| >= 2 ==> 2 + 2 * n <= |argv| < 2 + 2 * n + 2
    ensures |argv| < 2 ==> n == 0
  {
    if |argv| < 4 then 0 else (|argv| - 2) / 2
  }

  /** Argument pair k holds a flag option whose name, without its dash, is key. */
  predicate SetsKey(argv: seq<string>, k: nat, key: string)
    requires 3 + 2 * k < |argv|
  {
    IsFlagOption(argv[2 + 2 * k]) && argv[2 + 2 * k][1..] == key
  }

  /** The options dictionary after the first n argument pairs: each flag option sets its key, overwriting. */
  function ScannedOptions(argv: seq<string>, n: nat): map<string, string>
    requires 2 + 2 * n <= |argv|
  {
    if n == 0 then map[]
    else
      var opts := ScannedOptions(argv, n - 1);
      var i := 2 + 2 * (n - 1);
      if IsFlagOption(argv[i]) then opts[argv[i][1..] := argv[i + 1]] else opts
  }

  /** The scanned dictionary has a key exactly when some scanned pair sets it. */
  lemma {:induction false} ScannedKeys(argv: seq<string>, n: nat, key: string)
    requires 2 + 2 * n <= |argv|
    ensures key in ScannedOptions(argv, n) <==> exists k :: 0 <= k < n && SetsKey(argv, k, key)
  {
    if n > 0 {
      ScannedKeys(argv, n - 1, key);
      if SetsKey(argv, n - 1, key) {
        assert key in ScannedOptions(argv, n);
      }
      if key in ScannedOptions(argv, n) && !SetsKey(argv, n - 1, key) {
        assert key in ScannedOptions(argv, n - 1);
      }
    }
  }

  /** The last pair that sets a key wins: its value is the key's value. */
  lemma {:induction false} ScannedLastWins(argv: seq<string>, n: nat, k: nat, key: string)
    requires 2 + 2 * n <= |argv| && k < n
    requires SetsKey(argv, k, key)
    requires forall j :: k < j < n ==> !SetsKey(argv, j, key)
    ensures key in ScannedOptions(argv, n) && ScannedOptions(argv, n)[key] == argv[3 + 2 * k]
  {
    if k < n - 1 {
      ScannedLastWins(argv, n - 1, k, key);
      assert !SetsKey(argv, n - 1, key);
    }
  }

  /** Only the keys "flags" and "fflags" can ever be set. */
  lemma {:induction false} ScannedKeysNamed(argv: seq<string>, n: nat)
    requires 2 + 2 * n <= |argv|
    ensures forall key :: key in ScannedOptions(argv, n) ==> key == "flags" || key == "fflags"
  {
    if n > 0 {
      ScannedKeysNamed(argv, n - 1);
      var i := 2 + 2 * (n - 1);
      if IsFlagOption(argv[i]) {
        assert argv[i][1..] == "flags" || argv[i][1..] == "fflags";
      }
    }
  }

  /** What main takes from its command line: the output file name and the options dictionary. */
  datatype Invocation = Invocation(filename: string, options: map<string, string>)

  /**
   * The command line of main: with no file name it fails with the usage
   * message (exit status 1); otherwise argv[1] is the output file and every
   * later (-flags | -fflags, value) pair sets an option, the last one winning.
   */
  method ParseCommandLine(argv: seq<string>) returns (r: Result<Invocation>)
    ensures r.Failure? <==> |argv| < 2
    ensures r.Success? ==>
      && r.value.filename == argv[1]
      && r.value.options == ScannedOptions(argv, PairCount(argv))
  {
    if |argv| < 2 {
      return Failure("usage: output_file");
    }
    var opts: map<string, string> := map[];
    var i := 2;
    while i + 1 < |argv|
      invariant 2 <= i <= |argv| && i % 2 == 0
      invariant opts == ScannedOptions(argv, (i - 2) / 2)
      decreases |argv| - i
    {
      assert (i + 2 - 2) / 2 == (i - 2) / 2 + 1;
      if argv[i] == "-flags" || argv[i] == "-fflags" {
        opts := opts[argv[i][1..] := argv[i + 1]];
      }
      i := i + 2;
    }
    assert (i - 2) / 2 == PairCount(argv);
    r := Success(Invocation(argv[1], opts));
  }
}
