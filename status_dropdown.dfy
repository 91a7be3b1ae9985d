/** The agent's working status: the nine status values, the option list the
    status button offers (in display order), the lookup of the option shown
    for the current status, and the button's open/closed state. */
module StatusDropdown {
  import opened Text

  datatype StatusType =
    | Available | Break | Lunch | Personal | TechIssues
    | GoneHome | AfterCall | OutBound | OnCall

  /** The name under which a status is stored in the status log. */
  function StatusId(s: StatusType): string {
    match s
    case Available => "available"
    case Break => "break"
    case Lunch => "lunch"
    case Personal => "personal"
    case TechIssues => "tech_issues"
    case GoneHome => "gone_home"
    case AfterCall => "after_call"
    case OutBound => "out_bound"
    case OnCall => "on_call"
  }

  /** The status stored under a name, if the name is one of the nine. */
  function ParseStatus(name: string): Option<StatusType> {
    if name == "available" then Some(Available)
    else if name == "break" then Some(Break)
    else if name == "lunch" then Some(Lunch)
    else if name == "personal" then Some(Personal)
    else if name == "tech_issues" then Some(TechIssues)
    else if name == "gone_home" then Some(GoneHome)
    else if name == "after_call" then Some(AfterCall)
    else if name == "out_bound" then Some(OutBound)
    else if name == "on_call" then Some(OnCall)
    else None
  }

  /** Stored names read back as the status they were stored for, so no two
      statuses share a name. */
  lemma StatusIdRoundTrip(s: StatusType)
    ensures ParseStatus(StatusId(s)) == Some(s)
  {
  }

  /** One entry of the status menu. */
  datatype StatusOption = StatusOption(id: StatusType, caption: string, color: string)

  const StatusOptions: seq<StatusOption> := [
    StatusOption(Available, "Available", "bg-green-500"),
    StatusOption(OnCall, "On Call", "bg-blue-500"),
    StatusOption(Break, "Break", "bg-yellow-500"),
    StatusOption(Lunch, "Lunch", "bg-orange-500"),
    StatusOption(Personal, "Personal Time", "bg-purple-500"),
    StatusOption(TechIssues, "Tech Issues", "bg-red-500"),
    StatusOption(GoneHome, "Gone Home", "bg-slate-500"),
    StatusOption(AfterCall, "After Call Work", "bg-pink-500"),
    StatusOption(OutBound, "Out Bound", "bg-amber-700")
  ]

  /** Where a status sits in the menu: every status has an entry. */
  function OptionIndex(s: StatusType): (i: nat)
    ensures i < |StatusOptions| && StatusOptions[i].id == s
  {
    match s
    case Available => 0
    case OnCall => 1
    case Break => 2
    case Lunch => 3
    case Personal => 4
    case TechIssues => 5
    case GoneHome => 6
    case AfterCall => 7
    case OutBound => 8
  }

  /** The menu holds nine entries with pairwise distinct statuses, stored
      under pairwise distinct names. */
  lemma StatusOptionsDistinct()
    ensures |StatusOptions| == 9
    ensures forall i, j :: 0 <= i < j < |StatusOptions| ==> StatusOptions[i].id != StatusOptions[j].id
  {
  }

  /** The first menu entry whose stored name is `current`, if any. */
  function FindOption(options: seq<StatusOption>, current: string): (r: Option<StatusOption>)
    ensures r.Some? ==> r.value in options && StatusId(r.value.id) == current
    ensures r.None? ==> forall o :: o in options ==> StatusId(o.id) != current
  {
    if options == [] then None
    else if StatusId(options[0].id) == current then Some(options[0])
    else FindOption(options[1..], current)
  }

  /** The entry found is the first one with that stored name. */
  lemma {:induction false} FindOptionFirst(options: seq<StatusOption>, current: string, i: nat)
    requires i < |options| && StatusId(options[i].id) == current
    requires forall j :: 0 <= j < i ==> StatusId(options[j].id) != current
    ensures FindOption(options, current) == Some(options[i])
  {
    if i > 0 {
      assert forall j :: 0 <= j < i - 1 ==> options[1..][j] == options[j + 1];
      FindOptionFirst(options[1..], current, i - 1);
    }
  }

  /** The entry the status button shows for the status name it was given; a
      name that is no status falls back to the first entry, Available. */
  function CurrentOption(current: string): (r: StatusOption)
    ensures r in StatusOptions
    ensures ParseStatus(current).Some? ==> r.id == ParseStatus(current).value
    ensures ParseStatus(current).None? ==> r == StatusOptions[0] && r.id == Available
  {
    match FindOption(StatusOptions, current)
    case Some(o) =>
      StatusIdRoundTrip(o.id);
      o
    case None =>
      NoOptionNoStatus(current);
      StatusOptions[0]
  }

  /** A name with no menu entry is no status name. */
  lemma NoOptionNoStatus(current: string)
    requires FindOption(StatusOptions, current).None?
    ensures ParseStatus(current).None?
  {
    forall s: StatusType
      ensures StatusId(s) != current
    {
      var o := StatusOptions[OptionIndex(s)];
      assert o in StatusOptions;
    }
    ParseStatusSound(current);
  }

  /** A name that parses is the stored name of the status it parses to. */
  lemma ParseStatusSound(name: string)
    ensures ParseStatus(name).Some? ==> StatusId(ParseStatus(name).value) == name
  {
  }

  /** The status button and its menu. */
  class Dropdown {
    var isOpen: bool

    constructor ()
      ensures !isOpen
    {
      isOpen := false;
    }

    /** A click on the button opens a closed menu and closes an open one. */
    method Toggle()
      modifies this
      ensures isOpen == !old(isOpen)
    {
      isOpen := !isOpen;
    }

    /** A mouse press anywhere in the document closes the menu unless it
        lands inside the button or the menu. */
    method CloseOnOutsideClick(inside: bool)
      modifies this
      ensures isOpen == (old(isOpen) && inside)
    {
      if !inside {
        isOpen := false;
      }
    }

    /** Choosing an entry forwards exactly that status to the session and
        closes the menu. */
    method SelectStatus(status: StatusType) returns (forwarded: StatusType)
      modifies this
      ensures forwarded == status
      ensures !isOpen
    {
      forwarded := status;
      isOpen := false;
    }
  }
}
