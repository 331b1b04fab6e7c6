/**
 * The rain-detector demo (raining-detector-with-8591): each iteration
 * reads the LM393's digital output and its analog level, and reports
 * the pair only when it differs from the last pair reported.
 */
module RainDetector {
  import opened Gpio

  /** What one iteration reads: the digital output pin and the analog byte. */
  datatype RawSample = RawSample(pin: PinState, analog: Byte)

  /** The pair the loop compares and reports. */
  datatype Reading = Reading(raining: bool, analog: Byte)

  /** `last_raining_flag` and `last_raining_analog_value` before the first iteration. */
  const Initial: Reading := Reading(false, 255)

  /** The detector's digital output is High when dry and Low when raining. */
  function Decode(s: RawSample): (r: Reading)
  {
    Reading(s.pin == Low, s.analog)
  }

  /** The readings of a stream of samples, one per sample. */
  function Decoded(samples: seq<RawSample>): (rs: seq<Reading>)
  {
    seq(|samples|, i requires 0 <= i < |samples| => Decode(samples[i]))
  }

  /** The reports a run over `rs` produces when the last reported pair is `last`. */
  function Changes(last: Reading, rs: seq<Reading>): (reports: seq<Reading>)
    decreases |rs|
  {
    if rs == [] then []
    else (if rs[0] != last then [rs[0]] else []) + Changes(rs[0], rs[1..])
  }

  /** The last pair of `s`, or `last` if `s` is empty. */
  function Final(last: Reading, s: seq<Reading>): (r: Reading)
  {
    if s == [] then last else s[|s| - 1]
  }

  /** `s` starts with a pair other than `last` and never repeats a pair twice in a row. */
  predicate NoRepeats(last: Reading, s: seq<Reading>)
  {
    (s != [] ==> s[0] != last) && forall i :: 0 <= i < |s| - 1 ==> s[i] != s[i + 1]
  }

  /**
   * The main loop over a finite stream of samples: returns the pairs it
   * reports and the `last_*` pair it ends with.
   */
  method Monitor(samples: seq<RawSample>) returns (reports: seq<Reading>, last: Reading)
    ensures reports == Changes(Initial, Decoded(samples))
    ensures last == Final(Initial, Decoded(samples))
  {
    var lastRainingFlag := false;
    var lastRainingAnalogValue: Byte := 255;
    ghost var rs := Decoded(samples);
    reports := [];
    var i := 0;
    while i < |samples|
      invariant 0 <= i <= |samples|
      invariant Reading(lastRainingFlag, lastRainingAnalogValue) == Final(Initial, rs[..i])
      invariant reports + Changes(Reading(lastRainingFlag, lastRainingAnalogValue), rs[i..])
                == Changes(Initial, rs)
    {
      var isRainingFlag := samples[i].pin == Low;
      var rainingAnalogValue := samples[i].analog;

      var changed := false;
      if lastRainingFlag != isRainingFlag || lastRainingAnalogValue != rainingAnalogValue {
        changed := true;
      }

      ghost var before := Reading(lastRainingFlag, lastRainingAnalogValue);
      assert Reading(isRainingFlag, rainingAnalogValue) == rs[i];
      ChangesStep(reports, before, rs, i);
      ghost var reportsBefore := reports;
      if changed {
        lastRainingFlag := isRainingFlag;
        lastRainingAnalogValue := rainingAnalogValue;
        reports := reports + [Reading(lastRainingFlag, lastRainingAnalogValue)];
      }
      assert reports == reportsBefore + (if rs[i] != before then [rs[i]] else []);
      i := i + 1;
    }
    assert rs[..|samples|] == rs;
    last := Reading(lastRainingFlag, lastRainingAnalogValue);
  }

  /** One iteration of the filter on the i-th reading. */
  lemma ChangesStep(reports: seq<Reading>, last: Reading, rs: seq<Reading>, i: nat)
    requires i < |rs|
    ensures reports + Changes(last, rs[i..])
            == (reports + (if rs[i] != last then [rs[i]] else [])) + Changes(rs[i], rs[i + 1..])
    ensures Final(last, rs[..i + 1]) == rs[i]
  {
  }

  /** Reports never repeat: each differs from the one reported before it. */
  lemma {:induction false} ChangesNoRepeats(last: Reading, rs: seq<Reading>)
    ensures NoRepeats(last, Changes(last, rs))
    decreases |rs|
  {
    if rs != [] {
      ChangesNoRepeats(rs[0], rs[1..]);
    }
  }

  /** A stream that never repeats itself passes the filter unchanged. */
  lemma {:induction false} ChangesOfNoRepeats(last: Reading, s: seq<Reading>)
    requires NoRepeats(last, s)
    ensures Changes(last, s) == s
    decreases |s|
  {
    if s != [] {
      ChangesOfNoRepeats(s[0], s[1..]);
    }
  }

  /** Filtering the reports a second time changes nothing. */
  lemma ChangesIdempotent(last: Reading, rs: seq<Reading>)
    ensures Changes(last, Changes(last, rs)) == Changes(last, rs)
  {
    ChangesNoRepeats(last, rs);
    ChangesOfNoRepeats(last, Changes(last, rs));
  }

  /** Every report is one of the readings. */
  lemma {:induction false} ChangesAreReadings(last: Reading, rs: seq<Reading>)
    ensures forall r :: r in Changes(last, rs) ==> r in rs
    decreases |rs|
  {
    if rs != [] {
      ChangesAreReadings(rs[0], rs[1..]);
    }
  }

  /** The last pair reported (or the initial pair) is always the latest reading. */
  lemma {:induction false} LastReportIsLatest(last: Reading, rs: seq<Reading>)
    ensures Final(last, Changes(last, rs)) == Final(last, rs)
    decreases |rs|
  {
    if rs != [] {
      LastReportIsLatest(rs[0], rs[1..]);
    }
  }

  /** Nothing is reported exactly when every reading equals the last pair. */
  lemma {:induction false} SilentIffSteady(last: Reading, rs: seq<Reading>)
    ensures Changes(last, rs) == [] <==> forall i :: 0 <= i < |rs| ==> rs[i] == last
    decreases |rs|
  {
    if rs != [] {
      SilentIffSteady(rs[0], rs[1..]);
      if rs[0] == last {
        assert forall i :: 1 <= i < |rs| ==> rs[i] == rs[1..][i - 1];
      }
    }
  }

  /** A dry first reading of 255 matches the initial pair, so nothing is reported. */
  lemma DryFullScaleFirstIsSilent()
    ensures Changes(Initial, Decoded([RawSample(High, 255)])) == []
  {
  }
}
