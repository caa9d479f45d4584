/** The proposal card of the dashboard (`ProposalCard.tsx`): how it
    classifies the signature-analysis status into a badge and an icon, how
    it labels the document count, and what its delete handler does with the
    result of the delete action. */
module ProposalCard {
  import opened Wrappers
  import opened JsText

  /** The four kinds of status the card tells apart. */
  datatype Category = Completed | InProgress | Failed | Other

  datatype BadgeVariant = Default | Secondary | Destructive | Outline

  /** The icons `StatusIcon` draws; the plain clock is the muted one. */
  datatype Icon = CheckCircle | SpinningClock | AlertCircle | MutedClock

  /** `proposal.signatureAnalysisStatus || 'Not Started'`: the status text is
      never empty. */
  function DisplayedStatus(status: Option<string>): (r: string)
    ensures r != ""
    ensures Truthy(status) ==> r == status.value
    ensures !Truthy(status) ==> r == "Not Started"
  {
    OrElse(status, "Not Started")
  }

  /** The badge variant and text for a (defaulted) status, by the if-chain on
      its lower-cased form. */
  function Badge(signatureStatus: string): (b: (BadgeVariant, string))
  {
    var lower := ToLower(signatureStatus);
    if lower == "completed" || lower == "completed_success" then (Default, "Completed")
    else if lower == "in progress" || lower == "inprogress" then (Secondary, "In Progress")
    else if lower == "failed" then (Destructive, "Failed")
    else (Outline, signatureStatus)
  }

  /** `StatusIcon`: a switch on the lower-cased status; a missing or empty
      status gets the muted clock. */
  function StatusIcon(status: Option<string>): Icon
  {
    if !Truthy(status) then MutedClock
    else match ToLower(status.value)
      case "completed" => CheckCircle
      case "completed_success" => CheckCircle
      case "in progress" => SpinningClock
      case "inprogress" => SpinningClock
      case "failed" => AlertCircle
      case _ => MutedClock
  }

  /** The category a badge variant stands for. */
  function BadgeCategory(v: BadgeVariant): Category
  {
    match v
    case Default => Completed
    case Secondary => InProgress
    case Destructive => Failed
    case Outline => Other
  }

  /** The category an icon stands for. */
  function IconCategory(i: Icon): Category
  {
    match i
    case CheckCircle => Completed
    case SpinningClock => InProgress
    case AlertCircle => Failed
    case MutedClock => Other
  }

  /** The category of a status, spelled out case by case. */
  function CategoryOf(lower: string): Category
  {
    if lower in {"completed", "completed_success"} then Completed
    else if lower in {"in progress", "inprogress"} then InProgress
    else if lower == "failed" then Failed
    else Other
  }

  /** The badge follows the category of the lower-cased status: the three
      known categories get a fixed text, and any other status is shown as it
      is, with the outline badge. */
  lemma BadgeClassifies(signatureStatus: string)
    ensures BadgeCategory(Badge(signatureStatus).0) == CategoryOf(ToLower(signatureStatus))
    ensures CategoryOf(ToLower(signatureStatus)) == Completed ==> Badge(signatureStatus).1 == "Completed"
    ensures CategoryOf(ToLower(signatureStatus)) == InProgress ==> Badge(signatureStatus).1 == "In Progress"
    ensures CategoryOf(ToLower(signatureStatus)) == Failed ==> Badge(signatureStatus).1 == "Failed"
    ensures CategoryOf(ToLower(signatureStatus)) == Other ==> Badge(signatureStatus) == (Outline, signatureStatus)
  {
  }

  /** The icon and the badge never disagree: for every status the card
      shows, both pick the same category. */
  lemma IconAgreesWithBadge(status: Option<string>)
    ensures IconCategory(StatusIcon(Some(DisplayedStatus(status)))) == BadgeCategory(Badge(DisplayedStatus(status)).0)
  {
  }

  /** Changing the case of a status does not change its badge variant. */
  lemma BadgeIgnoresCase(a: string, b: string)
    requires ToLower(a) == ToLower(b)
    ensures Badge(a).0 == Badge(b).0
    ensures CategoryOf(ToLower(a)) != Other ==> Badge(a) == Badge(b)
  {
  }

  /** `{length} document{length !== 1 ? 's' : ''}`: the count in decimal,
      then "document", plural unless the count is exactly one. */
  function DocumentCountLabel(count: nat): (r: string)
    ensures var k := |NatToString(count)|;
      && k < |r| && AllDigits(r[..k]) && DigitsValue(r[..k]) == count
      && (r[k..] == " document" <==> count == 1)
      && (r[k..] == " documents" <==> count != 1)
  {
    var digits := NatToString(count);
    NatToStringRoundTrip(count);
    var r := digits + " document" + (if count != 1 then "s" else "");
    assert r[..|digits|] == digits;
    r
  }

  /** A toast the card shows. */
  datatype Notice = Notice(title: string, description: string, destructive: bool)

  /** The card's local state: the delete-in-flight flag and the confirmation
      dialog. */
  class CardState {
    const proposalId: int
    const proposalName: string
    var isDeleting: bool
    var isAlertOpen: bool

    constructor (proposalId: int, proposalName: string)
      ensures this.proposalId == proposalId && this.proposalName == proposalName
      ensures !isDeleting && !isAlertOpen
    {
      this.proposalId := proposalId;
      this.proposalName := proposalName;
      isDeleting := false;
      isAlertOpen := false;
    }

    /** The text of both delete buttons. */
    function DeleteLabel(): (r: string)
      reads this
      ensures r == "Deleting..." <==> isDeleting
      ensures r == "Delete" <==> !isDeleting
    {
      if isDeleting then "Deleting..." else "Delete"
    }

    /** The delete trigger, disabled while a delete runs. */
    method OpenDialog()
      modifies this
      ensures isAlertOpen == (old(isAlertOpen) || !old(isDeleting))
      ensures isDeleting == old(isDeleting)
    {
      if !isDeleting {
        isAlertOpen := true;
      }
    }

    /** The start of `handleDelete`, up to the awaited delete action. */
    method BeginDelete()
      modifies this
      ensures isDeleting && isAlertOpen == old(isAlertOpen)
    {
      isDeleting := true;
    }

    /** The rest of `handleDelete`, given what the awaited delete action did:
        the parent hears of the deletion only on success, and the flag and
        the dialog are reset on every path. */
    method FinishDelete(result: Outcome<Ack>) returns (deleted: Option<int>, notice: Notice)
      modifies this
      ensures deleted.Some? <==> result.Returned? && result.value.success
      ensures deleted.Some? ==> deleted.value == proposalId
      ensures notice.destructive <==> deleted.None?
      ensures result.Returned? && !result.value.success ==>
                notice == Notice("Error", OrElse(result.value.error, "Failed to delete proposal."), true)
      ensures result.Threw? ==> notice == Notice("Error", "An unexpected error occurred: " + result.message, true)
      ensures !isDeleting && !isAlertOpen
    {
      match result {
        case Returned(ack) =>
          if ack.success {
            notice := Notice("Proposal Deleted", "Proposal \"" + proposalName + "\" has been deleted.", false);
            deleted := Some(proposalId);
          } else {
            notice := Notice("Error", OrElse(ack.error, "Failed to delete proposal."), true);
            deleted := None;
          }
        case Threw(message) =>
          notice := Notice("Error", "An unexpected error occurred: " + message, true);
          deleted := None;
      }
      isDeleting := false;
      isAlertOpen := false;
    }
  }
}
