/** The chamber's discover page greets a visitor according to the time since
    the previous visit, kept in browser storage under 'lastVisit' as the text
    of a millisecond timestamp, and then records the current visit. The clock
    is a parameter. */
module Discover {
  import opened Wrappers
  import opened Text

  /** `1000 * 60 * 60 * 24`. */
  const DayMs := 86400000

  const WelcomeMessage := "Welcome! Let us know if you have any questions."
  const BackSoonMessage := "Back so soon! Awesome!"

  /** `Math.floor((now - lastVisitDate) / (1000 * 60 * 60 * 24))`; None
      stands for `NaN`, when the stored text does not parse. */
  function DaysBetween(now: int, lastVisit: string): (days: Option<int>)
    ensures days.None? <==> ParseInt(lastVisit).None?
    ensures days.Some? ==>
      days.value * DayMs <= now - ParseInt(lastVisit).value < (days.value + 1) * DayMs
  {
    match ParseInt(lastVisit)
    case None => None
    case Some(lastVisitDate) => Some((now - lastVisitDate) / DayMs)
  }

  /** The message shown for a stored value (None when nothing is stored). */
  function VisitMessage(lastVisit: Option<string>, now: int): (message: string)
    ensures !Truthy(lastVisit) ==> message == WelcomeMessage
    ensures Truthy(lastVisit) && ParseInt(lastVisit.value).Some? ==>
      (message == BackSoonMessage <==> now - ParseInt(lastVisit.value).value < DayMs)
  {
    if !Truthy(lastVisit) then WelcomeMessage
    else
      match DaysBetween(now, lastVisit.value)
      // `NaN < 1` and `NaN === 1` are both false
      case None => "You last visited NaN days ago."
      case Some(daysBetween) =>
        if daysBetween < 1 then BackSoonMessage
        else
          var dayText := if daysBetween == 1 then "day" else "days";
          "You last visited " + NatToString(daysBetween) + " " + dayText + " ago."
  }

  /** The visitor's browser storage, as far as this page uses it. */
  class VisitLog {
    var lastVisit: Option<string>

    constructor (stored: Option<string>)
      ensures lastVisit == stored
    {
      lastVisit := stored;
    }

    /** `displayLastVisitMessage`: the message for the stored visit, after
        which the current time is stored, whichever message was shown. */
    method DisplayLastVisitMessage(now: nat) returns (message: string)
      modifies this
      ensures message == VisitMessage(old(lastVisit), now)
      ensures lastVisit == Some(NatToString(now))
    {
      var stored := lastVisit;
      if !Truthy(stored) {
        message := WelcomeMessage;
      } else {
        var lastVisitDate := ParseInt(stored.value);
        if lastVisitDate.None? {
          message := "You last visited NaN days ago.";
        } else {
          var daysBetween := (now - lastVisitDate.value) / DayMs;
          if daysBetween < 1 {
            message := BackSoonMessage;
          } else {
            var dayText := if daysBetween == 1 then "day" else "days";
            message := "You last visited " + NatToString(daysBetween) + " " + dayText + " ago.";
          }
        }
      }
      lastVisit := Some(NatToString(now));
    }
  }

  /** A stored visit read back at the same moment (or any moment less than a
      day later) gives "Back so soon! Awesome!". */
  lemma RevisitWithinADay(last: nat, now: int)
    requires last <= now < last + DayMs
    ensures VisitMessage(Some(NatToString(last)), now) == BackSoonMessage
  {
    ParseIntOfNatToString(last);
  }

  /** Two visits in a row at the same time: the second greeting is "Back so soon!". */
  method VisitTwice(log: VisitLog, now: nat) returns (first: string, second: string)
    modifies log
    ensures first == VisitMessage(old(log.lastVisit), now)
    ensures second == BackSoonMessage
  {
    first := log.DisplayLastVisitMessage(now);
    second := log.DisplayLastVisitMessage(now);
    RevisitWithinADay(now, now);
  }

  /** A visit exactly one day (up to just under two) after the stored one says "1 day". */
  lemma OneDayLater(last: nat, now: int)
    requires last + DayMs <= now < last + 2 * DayMs
    ensures VisitMessage(Some(NatToString(last)), now) == "You last visited 1 day ago."
  {
    DaysBetweenIs(last, now, 1);
  }

  /** The whole days between two timestamps are the n with
      n days <= elapsed < n + 1 days. */
  lemma DaysBetweenIs(last: nat, now: int, n: int)
    requires last + n * DayMs <= now < last + (n + 1) * DayMs
    ensures DaysBetween(now, NatToString(last)) == Some(n)
  {
    ParseIntOfNatToString(last);
  }

  /** A visit n >= 2 whole days later says "n days". */
  lemma DaysLater(last: nat, now: int, n: nat)
    requires n >= 2 && last + n * DayMs <= now < last + (n + 1) * DayMs
    ensures VisitMessage(Some(NatToString(last)), now) == "You last visited " + NatToString(n) + " days ago."
  {
    DaysBetweenIs(last, now, n);
  }

  /** A clock that went backwards also gives "Back so soon! Awesome!". */
  lemma ClockSkewIsBackSoon(last: nat, now: int)
    requires now < last
    ensures VisitMessage(Some(NatToString(last)), now) == BackSoonMessage
  {
    ParseIntOfNatToString(last);
  }
}
