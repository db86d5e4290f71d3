/** The search panel: the query and whole-word flag it keeps, the find and
    close requests it makes of its owner, and the clock it shows. */
module SearchWidget {
  import opened Wrappers
  import opened Text

  /** A call the panel makes on the callbacks its owner passes in. */
  datatype Request =
    | FindNext(term: string, wholeWord: bool)
    | FindPrevious(term: string, wholeWord: bool)
    | Close

  datatype InputKey = InputKey(key: string, shiftKey: bool, ctrlKey: bool, metaKey: bool)

  /** The request a key-down in the query field makes, given the panel's query and flag. */
  function KeyRequest(searchTerm: string, isWholeWord: bool, e: InputKey): (r: Option<Request>)
    ensures e.key == "Escape" ==> r == Some(Close)
    ensures e.key == "Enter" ==> r == Some(if e.shiftKey then FindPrevious(searchTerm, isWholeWord) else FindNext(searchTerm, isWholeWord))
    ensures e.key != "Escape" && e.key != "Enter" ==> r == None
  {
    if e.key == "Escape" then Some(Close)
    else if e.key == "Enter" then
      if e.shiftKey then Some(FindPrevious(searchTerm, isWholeWord)) else Some(FindNext(searchTerm, isWholeWord))
    else if (e.ctrlKey || e.metaKey) && Lower(e.key) == "f" then
      None  // the find chord is absorbed: the field keeps focus and selects its text
    else None
  }

  class SearchWidget {
    var searchTerm: string
    var isWholeWord: bool
    /** The requests made so far, oldest first. */
    var requests: seq<Request>

    constructor ()
      ensures searchTerm == [] && !isWholeWord && requests == []
    {
      searchTerm := [];
      isWholeWord := false;
      requests := [];
    }

    /** Typing: the query becomes the field's value, and a non-empty value is searched for at once. */
    method HandleChange(value: string)
      modifies this`searchTerm, this`requests
      ensures searchTerm == value
      ensures requests == old(requests) + (if value != [] then [FindNext(value, isWholeWord)] else [])
    {
      searchTerm := value;
      if value != [] {
        requests := requests + [FindNext(value, isWholeWord)];
      }
    }

    method HandleKeyDown(e: InputKey)
      modifies this`requests
      ensures requests == old(requests) + match KeyRequest(searchTerm, isWholeWord, e) { case Some(q) => [q] case None => [] }
    {
      if e.key == "Escape" {
        requests := requests + [Close];
      } else if e.key == "Enter" {
        if e.shiftKey {
          requests := requests + [FindPrevious(searchTerm, isWholeWord)];
        } else {
          requests := requests + [FindNext(searchTerm, isWholeWord)];
        }
      } else if (e.ctrlKey || e.metaKey) && Lower(e.key) == "f" {
        // absorbed: focus stays in the field
      }
    }

    /** Flips whole-word matching and, when there is a query, searches again with the new setting. */
    method ToggleWholeWord()
      modifies this`isWholeWord, this`requests
      ensures isWholeWord == !old(isWholeWord)
      ensures requests == old(requests) + (if searchTerm != [] then [FindNext(searchTerm, isWholeWord)] else [])
    {
      var newValue := !isWholeWord;
      isWholeWord := newValue;
      if searchTerm != [] {
        requests := requests + [FindNext(searchTerm, newValue)];
      }
    }
  }

  // The clock in the panel: hours and minutes of the local time, as "h:mm AM".

  /** The hour on a twelve-hour dial: 0 and 12 show as 12. */
  function DialHour(hours: nat): (h: nat)
    requires hours < 24
    ensures 1 <= h <= 12
    ensures h % 12 == hours % 12
  {
    var h := hours % 12;
    if h != 0 then h else 12
  }

  function Suffix(hours: nat): (r: string)
    ensures r == "PM" <==> hours >= 12
    ensures r == "PM" || r == "AM"
  {
    if hours >= 12 then "PM" else "AM"
  }

  /** The minutes with a leading zero below ten. */
  function MinuteText(minutes: nat): (r: string)
    requires minutes < 60
    ensures |r| == 2 && IsDigits(r) && ParseDecimal(r) == minutes
  {
    if minutes < 10 then
      ParseDecimalLeadingZero(Decimal(minutes));
      ParseDecimalOfDecimal(minutes);
      "0" + Decimal(minutes)
    else
      ParseDecimalOfDecimal(minutes);
      Decimal(minutes)
  }

  /** The clock text shown in the panel: the dial hour, a colon, two minute digits, a space and the suffix. */
  function FormatTime(hours: nat, minutes: nat): (r: string)
    requires hours < 24 && minutes < 60
    ensures |r| == (if DialHour(hours) < 10 then 7 else 8)
    ensures r[|r| - 6] == ':' && r[|r| - 3] == ' '
    ensures r[|r| - 2..] == "AM" || r[|r| - 2..] == "PM"
    ensures IsDigits(r[..|r| - 6]) && IsDigits(r[|r| - 5..|r| - 3])
    ensures ParseDecimal(r[..|r| - 6]) == DialHour(hours)
    ensures ParseDecimal(r[|r| - 5..|r| - 3]) == minutes
    ensures r[|r| - 2..] == Suffix(hours)
  {
    var h := Decimal(DialHour(hours));
    var m := MinuteText(minutes);
    var r := h + ":" + m + " " + Suffix(hours);
    assert r[..|r| - 6] == h && r[|r| - 5..|r| - 3] == m && r[|r| - 2..] == Suffix(hours);
    ParseDecimalOfDecimal(DialHour(hours));
    r
  }

  /** Reads a clock text back into the hours (0 to 23) and minutes it shows. */
  function ParseTime(s: string): Option<(nat, nat)>
  {
    if |s| < 7 then None
    else
      var n := |s|;
      var hourText, minuteText, suffix := s[..n - 6], s[n - 5..n - 3], s[n - 2..];
      if s[n - 6] != ':' || s[n - 3] != ' ' || (suffix != "AM" && suffix != "PM") then None
      else
        var dial := ParseDecimal(hourText);
        Some((dial % 12 + (if suffix == "PM" then 12 else 0), ParseDecimal(minuteText)))
  }

  /** The clock text loses nothing: the time it shows can be read back from it. */
  lemma ParseFormatTime(hours: nat, minutes: nat)
    requires hours < 24 && minutes < 60
    ensures ParseTime(FormatTime(hours, minutes)) == Some((hours, minutes))
  {
    var s := FormatTime(hours, minutes);
    var dial := DialHour(hours);
    assert dial % 12 == hours % 12;
  }
}
