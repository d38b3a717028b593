/**
 * The carbs-on-board texts of the overview: a short form ("--g" when no
 * value is known) and a display form that is absent when no value is
 * known. Both add the future carbs in parentheses when there are any.
 */
module CobText {
  import opened Interfaces
  import opened Texts

  /** The carbs-on-board figures; `displayCob` is absent when it is not known. */
  datatype CobInfo = CobInfo(timestamp: int, displayCob: Option<real>, futureCarbs: real)

  const Unknown: string := "--g"

  /** `x.toInt()` on a Double: truncation toward zero. */
  function TruncateToInt(x: real): (n: int)
    ensures x >= 0.0 ==> n as real <= x < n as real + 1.0
    ensures x < 0.0 ==> n as real - 1.0 < x <= n as real
  {
    if x >= 0.0 then x.Floor else -((-x).Floor)
  }

  /** The part naming the future carbs, present only when there are some. */
  function FuturePart(futureCarbs: real, to0Decimal: real -> string): string
  {
    if futureCarbs > 0.0 then "(" + to0Decimal(futureCarbs) + ")" else ""
  }

  /**
   * `generateCOBString`; `to0Decimal` stands for
   * `DecimalFormatter.to0Decimal`.
   */
  method GenerateCobString(info: CobInfo, to0Decimal: real -> string) returns (s: string)
    ensures info.displayCob.None? ==> s == Unknown
    ensures info.displayCob.Some? ==>
      s == to0Decimal(info.displayCob.value) + FuturePart(info.futureCarbs, to0Decimal) + "g"
    ensures |s| > 0 && s[|s| - 1] == 'g'
  {
    s := "--g";
    if info.displayCob.Some? {
      var displayCob := info.displayCob.value;
      s := to0Decimal(displayCob);
      if info.futureCarbs > 0.0 {
        s := s + "(" + to0Decimal(info.futureCarbs) + ")";
      }
      s := s + "g";
    }
  }

  /**
   * `displayText`; `formatCarbs` stands for the `format_carbs` resource
   * applied to a whole number and `timeString` for `dateUtil.timeString`.
   */
  method DisplayText(info: CobInfo, formatCarbs: int -> string, to0Decimal: real -> string,
                     timeString: int -> string, isDev: bool)
    returns (text: Option<string>)
    ensures text.None? <==> info.displayCob.None?
    ensures info.displayCob.Some? ==>
      text.value == formatCarbs(TruncateToInt(info.displayCob.value))
        + FuturePart(info.futureCarbs, to0Decimal)
        + (if isDev then "\n" + timeString(info.timestamp) else "")
  {
    if info.displayCob.None? {
      return None;
    }
    var displayCob := info.displayCob.value;
    var cobText := formatCarbs(TruncateToInt(displayCob));
    if info.futureCarbs > 0.0 {
      cobText := cobText + "(" + to0Decimal(info.futureCarbs) + ")";
    }
    if isDev {
      cobText := cobText + "\n" + timeString(info.timestamp);
    }
    text := Some(cobText);
  }

  /**
   * When the number formatter never writes a '(', the short text holds a
   * '(' exactly when there are future carbs.
   */
  lemma ParenthesisIffFutureCarbs(cob: real, futureCarbs: real, to0Decimal: real -> string)
    requires '(' !in to0Decimal(cob) && '(' !in to0Decimal(futureCarbs)
    ensures '(' in to0Decimal(cob) + FuturePart(futureCarbs, to0Decimal) + "g" <==> futureCarbs > 0.0
  {
    var head, future := to0Decimal(cob), FuturePart(futureCarbs, to0Decimal);
    InConcat('(', head + future, "g");
    InConcat('(', head, future);
    if futureCarbs > 0.0 {
      assert future[0] == '(';
    }
  }
}
