/** The two-date picker above the security tables. Its inputs are uncontrolled: the browser keeps
    what was typed, the component keeps its own copy and reports every change to the page. */
module DateFilter {

  datatype Bound = From | To

  /** The pair handed to `onDateChange(from, to)`. */
  datatype Notified = Notified(from: string, to: string)

  class FilterTableByDate {
    var from: string
    var to: string
    /** What the two date inputs hold in the page. */
    var fromInput: string
    var toInput: string

    constructor()
      ensures from == "" && to == "" && Valid()
    {
      from := "";
      to := "";
      fromInput := "";
      toInput := "";
    }

    /** The component's copy agrees with what the inputs show. */
    predicate Valid()
      reads this
    {
      fromInput == from && toInput == to
    }

    /** `hasValue`: some bound is set. */
    predicate HasValue()
      reads this
    {
      from != "" || to != ""
    }

    /** The user picks `value` in one input: that bound changes, the other stays, and the page
        hears the pair as it now stands. */
    method HandleDateChange(bound: Bound, value: string) returns (n: Notified)
      requires Valid()
      modifies this
      ensures Valid()
      ensures bound == From ==> from == value && to == old(to)
      ensures bound == To ==> to == value && from == old(from)
      ensures n == Notified(from, to)
    {
      if bound == From {
        fromInput := value;
        from := value;
      } else {
        toInput := value;
        to := value;
      }
      n := Notified(from, to);
    }

    /** Reset clears both bounds and both inputs and reports ('', ''). */
    method HandleReset() returns (n: Notified)
      modifies this
      ensures from == "" && to == "" && Valid() && !HasValue()
      ensures n == Notified("", "")
    {
      from := "";
      to := "";
      fromInput := "";
      toInput := "";
      n := Notified("", "");
    }
  }
}
