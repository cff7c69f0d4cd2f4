/** webcam/formats.go: asking the device, with VIDIOC_ENUM_FMT, whether it offers a
    pixel format. The descriptor's index is set to 0 once and never advanced, so the
    loop asks about the first format over and over until the answer ends it. */
module WebcamFormats {
  import opened Base
  import opened Ioctl
  import opened Kernel

  /** How the search ends: with Supports' two results, or (only in this model) when the
      number of queries the caller allowed is used up while the loop would go on. */
  datatype Outcome = Returned(supported: bool, err: Option<Error>) | OutOfFuel

  /** n copies of one request. */
  function Repeat(x: Step, n: nat): (s: seq<Step>)
    ensures |s| == n && forall i :: 0 <= i < n ==> s[i] == x
  {
    seq(n, _ => x)
  }

  /** The classified answer to the one query the loop keeps making. */
  function FirstQuery(d: Driver): (bool, Option<Error>) {
    QueryFormat(Syscall(EnumAnswer(d, 0).ax))
  }

  /** The answer keeps the loop going: a format is reported and it is not the one asked for. */
  predicate KeepsLooping(d: Driver, format: bv32) {
    FirstQuery(d) == (true, None) && EnumAnswer(d, 0).pixelformat != format
  }

  /** How Supports ends when it may query the device `fuel` times. */
  function SupportsOutcome(d: Driver, format: bv32, fuel: nat): Outcome {
    var r := FirstQuery(d);
    if fuel == 0 then OutOfFuel
    else if r.1.Some? then Returned(false, r.1)
    else if !r.0 then Returned(false, None)
    else if EnumAnswer(d, 0).pixelformat == format then Returned(true, None)
    else OutOfFuel
  }

  /** How many queries Supports makes when it may make `fuel`. */
  function SupportsQueries(d: Driver, format: bv32, fuel: nat): nat {
    if fuel > 0 && KeepsLooping(d, format) then fuel else if fuel == 0 then 0 else 1
  }

  /** The search reports support exactly when the first query succeeds with a positive
      result and the descriptor it fills carries the format; an error is the query's errno. */
  lemma SupportsAnswers(d: Driver, format: bv32, fuel: nat)
    requires fuel > 0
    ensures SupportsOutcome(d, format, fuel) == Returned(true, None) <==>
      Syscall(EnumAnswer(d, 0).ax).errno == 0 && Syscall(EnumAnswer(d, 0).ax).r1 != 0
      && EnumAnswer(d, 0).pixelformat == format
    ensures SupportsOutcome(d, format, fuel).Returned? && SupportsOutcome(d, format, fuel).err.Some? <==>
      Syscall(EnumAnswer(d, 0).ax).errno != 0
    ensures Syscall(EnumAnswer(d, 0).ax).errno != 0 ==>
      SupportsOutcome(d, format, fuel) == Returned(false, Some(Errno(Syscall(EnumAnswer(d, 0).ax).errno)))
  {
  }

  /** The outcome never depends on how many further queries are allowed: either the
      first answer ends the search, or no number of queries ever does. */
  lemma OneQueryDecides(d: Driver, format: bv32, fuel: nat)
    requires fuel > 0
    ensures SupportsOutcome(d, format, fuel) == SupportsOutcome(d, format, 1)
    ensures SupportsOutcome(d, format, fuel).OutOfFuel? <==> KeepsLooping(d, format)
  {
  }

  /** Under the Linux convention a successful ioctl returns 0, which QueryFormat reads as
      "no entry": a device that answers the first query at all makes the search end
      after that one query with (false, nil). */
  lemma SuccessMeansUnsupported(d: Driver, format: bv32, fuel: nat)
    requires fuel > 0 && EnumAnswer(d, 0).ax == 0
    ensures SupportsOutcome(d, format, fuel) == Returned(false, None)
    ensures SupportsQueries(d, format, fuel) == 1
  {
    QueryFormatFoundOnlyOnPositive(0);
  }

  /** A device that lists no formats fails the first query with EINVAL. */
  lemma NoFormatsIsError(d: Driver, format: bv32, fuel: nat)
    requires fuel > 0 && d.formats == []
    ensures SupportsOutcome(d, format, fuel) == Returned(false, Some(Errno(EINVAL)))
  {
  }

  /** formats.go's supportedFormats: an opened device file. */
  class SupportedFormats {
    const file: File

    constructor (file: File)
      ensures this.file == file
    {
      this.file := file;
    }

    /** Supports, allowed at most `fuel` queries: every query asks about index 0 of
        `bufType`, and the search ends on an error, on "no entry", or on a match. */
    method Supports(bufType: Uint32, format: bv32, fuel: nat) returns (outcome: Outcome)
      modifies file`trace
      ensures outcome == SupportsOutcome(file.driver, format, fuel)
      ensures file.trace == old(file.trace) + Repeat(EnumFormat(0, bufType), SupportsQueries(file.driver, format, fuel))
    {
      var index: Uint32 := 0;
      var desc := new Fmtdesc();
      desc.index := index;
      desc.typ := bufType;

      var queries := 0;
      var stopped := false;
      while !stopped && queries < fuel
        invariant queries <= fuel
        invariant desc.index == 0 && desc.typ == bufType
        invariant file.trace == old(file.trace) + Repeat(EnumFormat(0, bufType), queries)
        invariant queries > 0 && !stopped ==> KeepsLooping(file.driver, format)
        invariant stopped ==> queries == 1 && FirstQuery(file.driver) == (false, None)
        decreases fuel - queries
      {
        var res := file.EnumFormatIoctl(desc);
        assert Repeat(EnumFormat(0, bufType), queries) + [EnumFormat(0, bufType)]
          == Repeat(EnumFormat(0, bufType), queries + 1);
        queries := queries + 1;
        var (ok, error) := QueryFormat(res);
        if error.Some? {
          return Returned(false, error);
        }
        if !ok {
          stopped := true;
        } else if desc.pixelformat == format {
          return Returned(true, None);
        }
      }
      if stopped {
        return Returned(false, None);
      }
      return OutOfFuel;
    }
  }
}
