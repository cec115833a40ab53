/** The new-request form: empty fields, a save guarded by `canSave` that
    names the signed-in user as requester, and the reset after success. */
module NewRequestForm {
  import opened Values
  import ApiSlice
  import RequestsApiSlice
  import opened EditRequestForm

  class Form {
    /** `userId` of the signed-in user. */
    const userId: string
    var title: string
    var text: string
    var ownerId: string
    var requestType: string
    var customer: string
    /** The routes navigated to, in order. */
    var navigations: seq<string>

    constructor (userId: string)
      ensures this.userId == userId && navigations == []
      ensures title == "" && text == "" && ownerId == "" && requestType == "" && customer == ""
    {
      this.userId := userId;
      title := "";
      text := "";
      ownerId := "";
      requestType := "";
      customer := "";
      navigations := [];
    }

    function Value(field: Field): string
      reads this
    {
      match field
      case Title => title
      case Text => text
      case Owner => ownerId
      case RequestType => requestType
      case Customer => customer
    }

    /** A field's `onChange`: that field takes the value, nothing else changes. */
    method Edit(field: Field, value: string)
      modifies this
      ensures Value(field) == value
      ensures forall f :: f != field ==> Value(f) == old(Value(f))
      ensures navigations == old(navigations)
    {
      match field
      case Title => title := value;
      case Text => text := value;
      case Owner => ownerId := value;
      case RequestType => requestType := value;
      case Customer => customer := value;
    }

    /** The new request: the signed-in user as requester, the chosen owner. */
    function AddPayload(): (body: Json)
      reads this
      ensures body.Obj? && body.fields.Keys == {"requester", "owner", "type", "customer", "title", "text"}
      ensures body.fields["requester"] == Str(userId) && body.fields["owner"] == Str(ownerId)
      ensures body.fields["type"] == Str(requestType) && body.fields["customer"] == Str(customer)
      ensures body.fields["title"] == Str(title) && body.fields["text"] == Str(text)
    {
      Obj(map[
        "requester" := Str(userId), "owner" := Str(ownerId), "type" := Str(requestType),
        "customer" := Str(customer), "title" := Str(title), "text" := Str(text)])
    }

    /** `onSaveRequestClicked`: the request is added only when `canSave`. */
    method OnSaveClicked(isLoading: bool) returns (sent: Option<ApiSlice.FetchArgs>)
      ensures sent.Some? <==> CanSave(title, ownerId, requestType, customer, isLoading)
      ensures sent.Some? ==> sent.value == RequestsApiSlice.AddNewRequestQuery(AddPayload())
    {
      if CanSave(title, ownerId, requestType, customer, isLoading) {
        sent := Some(RequestsApiSlice.AddNewRequestQuery(AddPayload()));
      } else {
        sent := None;
      }
    }

    /** The effect on `[isSuccess]`: the fields are cleared and the form
        navigates to the list, back to its initial state apart from the
        route. */
    method OnAddSettled(isSuccess: bool)
      modifies this
      ensures isSuccess ==>
        (forall f :: Value(f) == "") && navigations == old(navigations) + ["/requests"]
      ensures !isSuccess ==>
        (forall f :: Value(f) == old(Value(f))) && navigations == old(navigations)
    {
      if isSuccess {
        ownerId := "";
        requestType := "";
        customer := "";
        title := "";
        text := "";
        navigations := navigations + ["/requests"];
      }
    }
  }

  /** A fresh form cannot be saved: the four required fields start empty. */
  lemma FreshFormCannotSave(isLoading: bool)
    ensures !CanSave("", "", "", "", isLoading)
  {
  }
}
