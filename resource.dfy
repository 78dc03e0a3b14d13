/** One resource measurement of one HTCondor job (for example "Cpus" or
    "Memory"): its usage, the amount requested and the amount allocated (field `allocation`), and a
    warning level that the threshold rule sets. */
module Resources {
  import opened Numbers

  const ERROR := "error"
  const WARNING := "warning"
  const LIGHT_WARNING := "light_warning"
  const NORMAL := "normal"

  /** The four levels the threshold rule can assign. */
  predicate IsLevel(s: string) {
    s == ERROR || s == WARNING || s == LIGHT_WARNING || s == NORMAL
  }

  /** The class-wide table from warning level to display colour. */
  const LEVEL_COLORS: map<string, string> :=
    map[ERROR := "red", WARNING := "yellow", LIGHT_WARNING := "yellow2", NORMAL := "green"]

  /** `level_colors.get(level, "")`: the colour of a level, "" for an unset
      level and for any string that is not one of the four levels. */
  function Color(level: Option<string>): (c: string)
    ensures c != "" <==> level.Some? && IsLevel(level.value)
    ensures level.Some? && level.value in LEVEL_COLORS ==> c == LEVEL_COLORS[level.value]
  {
    if level.Some? && level.value in LEVEL_COLORS then LEVEL_COLORS[level.value] else ""
  }

  /** The level the threshold rule gives a measurement, for the bad and the
      tolerated deviation fractions. With a non-zero request the deviation
      usage/requested is compared with two closed bands around 1; with a zero
      request any positive usage is an error. */
  function Classify(usage: Num, requested: Num, bad: real, tolerated: real): (level: string)
    ensures IsLevel(level)
    // a NaN usage against a non-zero request is a light warning, whatever the thresholds
    ensures !IsZero(requested) && usage.NaN? ==> level == LIGHT_WARNING
    // a number against a number: error exactly outside the closed bad band
    ensures !IsZero(requested) && usage.Val? && requested.Val? ==>
              (level == ERROR <==> usage.r / requested.r < 1.0 - bad || 1.0 + bad < usage.r / requested.r)
    // inside the bad band: warning exactly outside the closed tolerated band, else normal
    ensures !IsZero(requested) && usage.Val? && requested.Val? &&
            1.0 - bad <= usage.r / requested.r <= 1.0 + bad ==>
              (level == WARNING <==> usage.r / requested.r < 1.0 - tolerated || 1.0 + tolerated < usage.r / requested.r) &&
              (level == NORMAL <==> 1.0 - tolerated <= usage.r / requested.r <= 1.0 + tolerated)
    // a number against a NaN request: the deviation is NaN, which is in no band
    ensures requested.NaN? && usage.Val? ==> level == ERROR
    // a zero request: error exactly for positive usage (not for NaN)
    ensures IsZero(requested) ==> (level == ERROR <==> usage.Val? && usage.r > 0.0)
    ensures IsZero(requested) ==> (level == NORMAL <==> !(usage.Val? && usage.r > 0.0))
  {
    if !IsZero(requested) then
      var deviation := Div(usage, requested);
      if usage.NaN? then LIGHT_WARNING
      else if !Within(1.0 - bad, deviation, 1.0 + bad) then ERROR
      else if !Within(1.0 - tolerated, deviation, 1.0 + tolerated) then WARNING
      else NORMAL
    else if IsPositive(usage) then ERROR
    else NORMAL
  }

  /** The value of a resource: its five fields. */
  datatype Rec = Rec(name: string, usage: Num, requested: Num, allocation: Num, warningLevel: Option<string>)

  /** The record as an accumulator or a freshly converted row starts it: not yet classified. */
  function Unclassified(r: Rec): (u: Rec)
    ensures u.warningLevel == None && u.(warningLevel := r.warningLevel) == r
  {
    r.(warningLevel := None)
  }

  class Resource {
    var name: string
    var usage: Num
    var requested: Num
    var allocation: Num
    var warningLevel: Option<string>

    constructor (name: string, usage: Num, requested: Num, allocation: Num, warningLevel: Option<string> := None)
      ensures Snapshot() == Rec(name, usage, requested, allocation, warningLevel)
    {
      this.name := name;
      this.usage := usage;
      this.requested := requested;
      this.allocation := allocation;
      this.warningLevel := warningLevel;
    }

    /** The fields of this object as a value (the colour table is not one of them). */
    function Snapshot(): (s: Rec)
      reads this
      ensures s.name == name && s.usage == usage && s.requested == requested
      ensures s.allocation == allocation && s.warningLevel == warningLevel
    {
      Rec(name, usage, requested, allocation, warningLevel)
    }

    /** The colour of the current warning level. */
    function GetColor(): (c: string)
      reads this
      ensures c != "" <==> warningLevel.Some? && IsLevel(warningLevel.value)
    {
      Color(warningLevel)
    }

    /** Set the warning level from the thresholds; nothing else changes. */
    method ChgLvlOnThresholds(bad: real, tolerated: real)
      modifies this`warningLevel
      ensures warningLevel == Some(Classify(usage, requested, bad, tolerated))
      ensures warningLevel.Some? && IsLevel(warningLevel.value)
      ensures name == old(name) && usage == old(usage)
      ensures requested == old(requested) && allocation == old(allocation)
    {
      if requested != Val(0.0) {
        var deviation := Div(usage, requested);
        if usage.NaN? {
          warningLevel := Some(LIGHT_WARNING);
        } else if !Within(1.0 - bad, deviation, 1.0 + bad) {
          warningLevel := Some(ERROR);
        } else if !Within(1.0 - tolerated, deviation, 1.0 + tolerated) {
          warningLevel := Some(WARNING);
        } else {
          warningLevel := Some(NORMAL);
        }
      } else if IsPositive(usage) {
        warningLevel := Some(ERROR);
      } else {
        warningLevel := Some(NORMAL);
      }
    }
  }

  /** Tightening the tolerated band, all else fixed, can turn normal into
      warning but never warning into normal, and leaves error and light
      warning as they are. */
  lemma TighterToleranceOnlyWarnsMore(usage: Num, requested: Num, bad: real, loose: real, tight: real)
    requires tight <= loose
    ensures Classify(usage, requested, bad, loose) == WARNING ==> Classify(usage, requested, bad, tight) == WARNING
    ensures Classify(usage, requested, bad, tight) == NORMAL ==> Classify(usage, requested, bad, loose) == NORMAL
    ensures (Classify(usage, requested, bad, loose) == ERROR) == (Classify(usage, requested, bad, tight) == ERROR)
    ensures (Classify(usage, requested, bad, loose) == LIGHT_WARNING) == (Classify(usage, requested, bad, tight) == LIGHT_WARNING)
  {
  }

  /** Every level the rule assigns has a colour. */
  lemma ClassifiedHasColor(usage: Num, requested: Num, bad: real, tolerated: real)
    ensures Color(Some(Classify(usage, requested, bad, tolerated))) != ""
  {
  }

  /** The bands are closed. A deviation of exactly 1 - bad is not an error:
      it is a warning when the tolerated band is narrower than the bad band.
      A deviation of exactly 1 is normal for any non-negative fractions. */
  lemma BoundaryIsInsideBadBand(usage: real, requested: real, bad: real, tolerated: real)
    requires requested != 0.0 && 0.0 <= bad
    ensures usage / requested == 1.0 - bad && tolerated < bad ==>
              Classify(Val(usage), Val(requested), bad, tolerated) == WARNING
    ensures usage / requested == 1.0 && 0.0 <= tolerated ==>
              Classify(Val(usage), Val(requested), bad, tolerated) == NORMAL
  {
  }

  /** 500 of 1000 requested, with bad 0.5 and tolerated 0.1, is a warning. */
  lemma HalfUsageIsWarning()
    ensures Classify(Val(500.0), Val(1000.0), 0.5, 0.1) == WARNING
  {
    BoundaryIsInsideBadBand(500.0, 1000.0, 0.5, 0.1);
  }
}
