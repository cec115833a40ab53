/** The edit-request form: local copies of the request's fields, the save
    and delete actions, the delete-confirmation dialog, and the reset that
    follows a successful mutation. */
module EditRequestForm {
  import opened Values
  import Seqs
  import ApiSlice
  import opened RequestsApiSlice

  /** The text fields of a request form. */
  datatype Field = Title | Text | Owner | RequestType | Customer

  /** `[title, owner, type, customer].every(Boolean) && !isLoading`: the text
      is optional, the other four fields are required. */
  function CanSave(title: string, owner: string, requestType: string, customer: string, isLoading: bool): (ok: bool)
    ensures ok <==> title != "" && owner != "" && requestType != "" && customer != "" && !isLoading
  {
    var required := [title, owner, requestType, customer];
    assert required[0] == title && required[1] == owner && required[2] == requestType && required[3] == customer;
    Seqs.AllNonEmpty(required) && !isLoading
  }

  class Form {
    const request: Request
    var title: string
    var text: string
    var owner: string
    var requestType: string
    var customer: string
    var completed: bool
    /** Whether the delete-confirmation dialog is open. */
    var open: bool
    /** The routes navigated to, in order. */
    var navigations: seq<string>

    /** The initial state: the request's own values, the dialog closed. */
    constructor (request: Request)
      ensures this.request == request
      ensures title == request.title && text == request.text && owner == request.owner
      ensures requestType == request.requestType && customer == request.customer
      ensures completed == request.completed && !open && navigations == []
    {
      this.request := request;
      title := request.title;
      text := request.text;
      owner := request.owner;
      requestType := request.requestType;
      customer := request.customer;
      completed := request.completed;
      open := false;
      navigations := [];
    }

    /** The value of a text field. */
    function Value(field: Field): string
      reads this
    {
      match field
      case Title => title
      case Text => text
      case Owner => owner
      case RequestType => requestType
      case Customer => customer
    }

    /** A field's `onChange`: that field takes the value, nothing else changes. */
    method Edit(field: Field, value: string)
      modifies this
      ensures Value(field) == value
      ensures forall f :: f != field ==> Value(f) == old(Value(f))
      ensures completed == old(completed) && open == old(open) && navigations == old(navigations)
    {
      match field
      case Title => title := value;
      case Text => text := value;
      case Owner => owner := value;
      case RequestType => requestType := value;
      case Customer => customer := value;
    }

    /** The checkbox's `onChange`. */
    method ToggleCompleted()
      modifies this
      ensures completed == !old(completed)
      ensures forall f :: Value(f) == old(Value(f))
      ensures open == old(open) && navigations == old(navigations)
    {
      completed := !completed;
    }

    /** 'Delete Request' opens the dialog; so does the dialog's own
        `onClose` (a backdrop click or Escape), which sets `open` to true
        rather than false. */
    method OpenDialog()
      modifies this
      ensures open
      ensures forall f :: Value(f) == old(Value(f))
      ensures completed == old(completed) && navigations == old(navigations)
    {
      open := true;
    }

    /** The dialog's 'No'. */
    method DismissDialog()
      modifies this
      ensures !open
      ensures forall f :: Value(f) == old(Value(f))
      ensures completed == old(completed) && navigations == old(navigations)
    {
      open := false;
    }

    /** The update body: the request's `id` and the form's values. */
    function UpdatePayload(): (body: Json)
      reads this
      ensures body.Obj? && body.fields.Keys == {"id", "owner", "type", "customer", "title", "text", "completed"}
      ensures body.fields["id"] == OptionalStr(request.id) && body.fields["completed"] == Bool(completed)
      ensures body.fields["title"] == Str(title) && body.fields["text"] == Str(text)
      ensures body.fields["owner"] == Str(owner) && body.fields["type"] == Str(requestType)
      ensures body.fields["customer"] == Str(customer)
    {
      Obj(map[
        "id" := OptionalStr(request.id), "owner" := Str(owner), "type" := Str(requestType),
        "customer" := Str(customer), "title" := Str(title), "text" := Str(text),
        "completed" := Bool(completed)])
    }

    /** `onSaveRequestClicked`: the update is sent only when `canSave`. */
    method OnSaveClicked(isLoading: bool) returns (sent: Option<ApiSlice.FetchArgs>)
      ensures sent.Some? <==> CanSave(title, owner, requestType, customer, isLoading)
      ensures sent.Some? ==> sent.value == UpdateRequestQuery(UpdatePayload())
    {
      if CanSave(title, owner, requestType, customer, isLoading) {
        sent := Some(UpdateRequestQuery(UpdatePayload()));
      } else {
        sent := None;
      }
    }

    /** `onDeleteRequestConfirmed`: a delete of this request, whatever the
        dialog's state. */
    method OnDeleteConfirmed() returns (sent: ApiSlice.FetchArgs)
      ensures sent == DeleteRequestQuery(Obj(map["id" := OptionalStr(request.id)]))
      ensures sent.body == Obj(map["id" := OptionalStr(request.id)])
    {
      sent := DeleteRequestQuery(Obj(map["id" := OptionalStr(request.id)]));
    }

    /** The effect on `[isSuccess, isDelSuccess]`: after either mutation
        succeeds the text fields are cleared, `completed` is kept, and the
        form navigates to the list. A cleared form cannot be saved. */
    method OnMutationSettled(isSuccess: bool, isDelSuccess: bool)
      modifies this
      ensures isSuccess || isDelSuccess ==>
        && (forall f :: Value(f) == "")
        && navigations == old(navigations) + ["/requests"]
        && (forall isLoading :: !CanSave(title, owner, requestType, customer, isLoading))
      ensures !(isSuccess || isDelSuccess) ==>
        (forall f :: Value(f) == old(Value(f))) && navigations == old(navigations)
      ensures completed == old(completed) && open == old(open)
    {
      if isSuccess || isDelSuccess {
        owner := "";
        requestType := "";
        customer := "";
        title := "";
        text := "";
        navigations := navigations + ["/requests"];
      }
    }
  }
}
