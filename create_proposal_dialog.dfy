/** The "New Proposal" dialog (`CreateProposalDialog.tsx`): the name-length
    check before submitting, the reading of the many shapes an error from
    `createProposalAction` can take into one message, and what a successful
    creation does. The awaited action's result is an input. */
module CreateProposalDialog {
  import opened Wrappers
  import opened JsText
  import opened Types
  import Actions

  const UnknownError := "An unknown error occurred."

  /** The field `key` of an error object, if the object has one. */
  function FieldOf(e: Json, key: string): Option<Json>
  {
    if e.JObject? && key in e.fields then Some(e.fields[key]) else None
  }

  /** The message shown for a (truthy) error value. Tried in order: a string
      as it is; an array whose first element is a string, joined with ", ";
      an object with a truthy `detail`, as `String(detail)`; an object whose
      `name` is an array, joined with ", "; otherwise a fixed text. Arrays are
      objects too, but have neither field. */
  function ErrorMessage(e: Json): (r: string)
    requires JsonTruthy(e)
    ensures e.JString? ==> r == e.s
    ensures e.JArray? && |e.items| > 0 && e.items[0].JString? ==> r == JoinJson(e.items, ", ")
    ensures e.JArray? && (|e.items| == 0 || !e.items[0].JString?) ==> r == UnknownError
    ensures e.JObject? && FieldOf(e, "detail").Some? && JsonTruthy(FieldOf(e, "detail").value) ==>
              r == JsonToString(FieldOf(e, "detail").value)
    ensures e.JObject? && !(FieldOf(e, "detail").Some? && JsonTruthy(FieldOf(e, "detail").value)) ==>
              r == (if FieldOf(e, "name").Some? && FieldOf(e, "name").value.JArray?
                    then JoinJson(FieldOf(e, "name").value.items, ", ") else UnknownError)
    ensures e.JNumber? || e.JBool? ==> r == UnknownError
  {
    if e.JString? then e.s
    else if e.JArray? && |e.items| > 0 && e.items[0].JString? then JoinJson(e.items, ", ")
    else if e.JObject? && FieldOf(e, "detail").Some? && JsonTruthy(FieldOf(e, "detail").value) then
      JsonToString(FieldOf(e, "detail").value)
    else if e.JObject? && FieldOf(e, "name").Some? && FieldOf(e, "name").value.JArray? then
      JoinJson(FieldOf(e, "name").value.items, ", ")
    else UnknownError
  }

  /** The field errors the action's validation produces read back as the
      validation message itself. */
  lemma FieldErrorsReadBack(message: string)
    ensures JsonTruthy(Actions.FieldErrors(message))
    ensures ErrorMessage(Actions.FieldErrors(message)) == message
  {
    var e := Actions.FieldErrors(message);
    assert FieldOf(e, "detail") == None;
    assert FieldOf(e, "name") == Some(JArray([JString(message)]));
  }

  /** A FastAPI-style `{ detail: "..." }` error reads as its detail. */
  lemma DetailReadBack(detail: string)
    requires detail != ""
    ensures ErrorMessage(JObject(map["detail" := JString(detail)])) == detail
  {
    assert FieldOf(JObject(map["detail" := JString(detail)]), "detail") == Some(JString(detail));
  }

  /** Every error `createProposalAction` can return is truthy, so the dialog
      always reports it, and a short name is reported with the schema's
      message. */
  lemma ActionErrorsAreReported(name: Option<string>, o: Actions.HttpOutcome<ApiProposal, Json>, parseFloat: string -> Option<real>)
    ensures var r := Actions.CreateProposalAction(name, o, parseFloat);
      r.error.Some? ==> JsonTruthy(r.error.value)
    ensures name.Some? && |name.value| < 3 ==>
      ErrorMessage(Actions.CreateProposalAction(name, o, parseFloat).error.value) == Actions.NameTooShort
  {
    if name.Some? && |name.value| < 3 {
      FieldErrorsReadBack(Actions.NameTooShort);
    }
  }

  /** The dialog's own length check rejects exactly the names the action's
      schema rejects. */
  lemma DialogCheckMatchesSchema(name: string)
    ensures |name| < 3 <==> Actions.ValidateName(Some(name)).Some?
  {
  }

  /** What the awaited part of a submit leads to, besides the state change. */
  datatype SubmitEffect =
    | ErrorToast(message: string)
    | Created(navigateTo: string)
    | NoEffect
    | UnexpectedToast(message: string)

  class Dialog {
    var isOpen: bool
    var name: string
    var isPending: bool

    constructor ()
      ensures !isOpen && name == "" && !isPending
    {
      isOpen := false;
      name := "";
      isPending := false;
    }

    /** The save button is disabled while pending or while the name is
        shorter than 3. */
    predicate CanSubmit()
      reads this
    {
      !isPending && |name| >= 3
    }

    function SaveLabel(): (r: string)
      reads this
      ensures r == "Saving..." <==> isPending
    {
      if isPending then "Saving..." else "Save Proposal"
    }

    /** The name input's `onChange`; the input is disabled while a save is
        pending, so typing then changes nothing. */
    method SetName(value: string)
      modifies this
      ensures name == (if old(isPending) then old(name) else value)
      ensures isOpen == old(isOpen) && isPending == old(isPending)
    {
      if !isPending {
        name := value;
      }
    }

    /** The dialog's `onOpenChange`. */
    method SetOpen(open: bool)
      modifies this
      ensures isOpen == open && name == old(name) && isPending == old(isPending)
    {
      isOpen := open;
    }

    /** The Cancel button, disabled while a save is pending. */
    method Cancel()
      modifies this
      ensures isOpen == (old(isOpen) && old(isPending))
      ensures name == old(name) && isPending == old(isPending)
    {
      if !isPending {
        isOpen := false;
      }
    }

    /** The synchronous start of `handleSubmit`. A short name is rejected
        with a validation toast before the action is called and changes
        nothing; otherwise the dialog becomes pending, which shows
        "Saving..." and disables the save button. */
    method BeginSubmit() returns (toast: Option<string>)
      modifies this
      ensures toast.Some? <==> |old(name)| < 3
      ensures toast.Some? ==> toast.value == Actions.NameTooShort && isPending == old(isPending)
      ensures toast.None? ==> isPending && SaveLabel() == "Saving..." && !CanSubmit()
      ensures isOpen == old(isOpen) && name == old(name)
    {
      if |name| < 3 {
        return Some(Actions.NameTooShort);
      }
      isPending := true;
      toast := None;
    }

    /** The rest of `handleSubmit`, given what the awaited
        `createProposalAction` did. A truthy error is shown as its message; a
        created proposal closes the dialog, clears the name, notifies the
        parent page (`onProposalCreated`) and leads to the proposal's page; a
        throw is reported; the dialog is no longer pending on any path. */
    method FinishSubmit(result: Outcome<CreateReply>) returns (effect: SubmitEffect, notifyParent: bool)
      modifies this
      ensures notifyParent <==> effect.Created?
      ensures effect.Created? <==>
                result.Returned? && !(result.value.error.Some? && JsonTruthy(result.value.error.value)) &&
                result.value.proposal.Some?
      ensures effect.Created? ==>
                effect.navigateTo == "/proposals/" + IntToString(result.value.proposal.value.id) &&
                !isOpen && name == ""
      ensures !effect.Created? ==> isOpen == old(isOpen) && name == old(name)
      ensures result.Returned? && result.value.error.Some? && JsonTruthy(result.value.error.value) ==>
                effect == ErrorToast(ErrorMessage(result.value.error.value))
      ensures result.Returned? && !(result.value.error.Some? && JsonTruthy(result.value.error.value)) &&
                result.value.proposal.None? ==>
                effect == NoEffect
      ensures result.Threw? ==> effect == UnexpectedToast("An unexpected error occurred: " + result.message)
      ensures !isPending
    {
      notifyParent := false;
      match result {
        case Returned(reply) =>
          if reply.error.Some? && JsonTruthy(reply.error.value) {
            effect := ErrorToast(ErrorMessage(reply.error.value));
          } else if reply.proposal.Some? {
            isOpen := false;
            name := "";
            notifyParent := true;
            effect := Created("/proposals/" + IntToString(reply.proposal.value.id));
          } else {
            effect := NoEffect;
          }
        case Threw(message) =>
          effect := UnexpectedToast("An unexpected error occurred: " + message);
      }
      isPending := false;
    }
  }

  /** As written, a valid name never creates a proposal: the action throws a
      `TypeError` (`formData.get is not a function` in a development build;
      a production build replaces the message) before its `try`, so the
      dialog reports an unexpected error, does not notify the parent, and
      stays open with the name still typed. */
  method SubmitPlainObjectAsWritten(name: string, thrown: string) returns (d: Dialog, effect: SubmitEffect, notifyParent: bool)
    requires |name| >= 3
    ensures effect == UnexpectedToast("An unexpected error occurred: " + thrown)
    ensures !notifyParent
    ensures d.isOpen && d.name == name && !d.isPending
  {
    d := new Dialog();
    d.SetOpen(true);
    d.SetName(name);
    var toast := d.BeginSubmit();
    effect, notifyParent := d.FinishSubmit(Threw(thrown));
  }

  /** With the name handed over as the action expects, a valid name that the
      server accepts closes the dialog, clears it, notifies the parent and
      leads to the new proposal's page. */
  method SubmitFormDataCreates(name: string, o: Actions.HttpOutcome<ApiProposal, Json>,
                               parseFloat: string -> Option<real>) returns (d: Dialog, effect: SubmitEffect, notifyParent: bool)
    requires |name| >= 3 && o.Received?
    ensures effect == Created("/proposals/" + IntToString(o.payload.id))
    ensures notifyParent
    ensures !d.isOpen && d.name == "" && !d.isPending
  {
    d := new Dialog();
    d.SetOpen(true);
    d.SetName(name);
    var toast := d.BeginSubmit();
    var reply := Actions.CreateProposalAction(Some(name), o, parseFloat);
    effect, notifyParent := d.FinishSubmit(Returned(reply));
  }
}
