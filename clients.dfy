/** The Clients page: a searchable client list with an add/edit dialog and delete. */
module Clients {
  import Text
  import Collections

  datatype Client = Client(
    id: string,
    name: string,
    email: string,
    company: string,
    address: string,
    phone: string,
    createdAt: string,
    currency: string)

  /** The six fields the dialog edits. */
  datatype ClientForm = ClientForm(
    name: string,
    email: string,
    company: string,
    address: string,
    phone: string,
    currency: string)

  /** The `name` attributes of the dialog's text inputs; currency has its own select. */
  datatype TextField = Name | Email | Company | Address | Phone

  const BlankForm := ClientForm("", "", "", "", "", "USD")

  /** A client is listed when the search hits its name, email or company, ignoring case. */
  function ClientShown(c: Client, search: string): (r: bool)
    ensures r <==> Text.MatchesSearch(c.name, search) || Text.MatchesSearch(c.email, search)
                   || Text.MatchesSearch(c.company, search)
    ensures search == "" ==> r
  {
    Text.MatchesSearch(c.name, search) || Text.MatchesSearch(c.email, search) || Text.MatchesSearch(c.company, search)
  }

  function FilteredClients(clients: seq<Client>, search: string): (r: seq<Client>)
    ensures forall i :: 0 <= i < |r| ==> r[i] in clients && ClientShown(r[i], search)
    ensures forall i :: 0 <= i < |clients| && ClientShown(clients[i], search) ==> clients[i] in r
    ensures Collections.SubsequenceOf(r, clients)
    ensures forall x :: multiset(r)[x] == if ClientShown(x, search) then multiset(clients)[x] else 0
  {
    Collections.FilterIsSubsequence(clients, c => ClientShown(c, search));
    Collections.FilterCounts(clients, c => ClientShown(c, search));
    Collections.Filter(clients, c => ClientShown(c, search))
  }

  /** The form `handleOpenDialog(client)` fills in from a client. */
  function FormOf(c: Client): (f: ClientForm)
    ensures f.name == c.name && f.email == c.email && f.company == c.company
    ensures f.address == c.address && f.phone == c.phone && f.currency == c.currency
    ensures Overwritten(c, f) == c
  {
    ClientForm(c.name, c.email, c.company, c.address, c.phone, c.currency)
  }

  /** `{ ...client, ...formData }`: the form's six fields over the client's. */
  function Overwritten(c: Client, f: ClientForm): (r: Client)
    ensures r.id == c.id && r.createdAt == c.createdAt
    ensures r.name == f.name && r.email == f.email && r.company == f.company
    ensures r.address == f.address && r.phone == f.phone && r.currency == f.currency
  {
    c.(name := f.name, email := f.email, company := f.company, address := f.address,
       phone := f.phone, currency := f.currency)
  }

  /** `handleChange` for the input named `field`. */
  function WithTextField(f: ClientForm, field: TextField, value: string): (r: ClientForm)
    ensures r.currency == f.currency
    ensures field == Name ==> r == f.(name := value)
    ensures field != Name ==> r.name == f.name
    ensures field == Email ==> r == f.(email := value)
    ensures field == Company ==> r == f.(company := value)
    ensures field == Address ==> r == f.(address := value)
    ensures field == Phone ==> r == f.(phone := value)
  {
    match field
    case Name => f.(name := value)
    case Email => f.(email := value)
    case Company => f.(company := value)
    case Address => f.(address := value)
    case Phone => f.(phone := value)
  }

  /** Loading a client into the form and saving it back gives the same client;
      saving a form and loading it back gives the same form. */
  lemma FormRoundTrip(c: Client, f: ClientForm)
    ensures Overwritten(c, FormOf(c)) == c
    ensures FormOf(Overwritten(c, f)) == f
  {
  }

  /** The edit branch of `handleSubmit`: every record with the edited id takes the form. */
  function WithClientEdited(clients: seq<Client>, id: string, f: ClientForm): (r: seq<Client>)
    ensures |r| == |clients|
    ensures forall i :: 0 <= i < |clients| && clients[i].id != id ==> r[i] == clients[i]
    ensures forall i :: 0 <= i < |clients| && clients[i].id == id ==>
      r[i].id == id && r[i].createdAt == clients[i].createdAt && FormOf(r[i]) == f
  {
    seq(|clients|, i requires 0 <= i < |clients| => if clients[i].id == id then Overwritten(clients[i], f) else clients[i])
  }

  /** The add branch of `handleSubmit`: one record whose id is the new length, in decimal. */
  function WithClientAdded(clients: seq<Client>, f: ClientForm, today: string): (r: seq<Client>)
    ensures |r| == |clients| + 1 && r[..|clients|] == clients
    ensures r[|clients|].id == Text.NatToDecimal(|clients| + 1)
    ensures FormOf(r[|clients|]) == f && r[|clients|].createdAt == today
  {
    clients + [Overwritten(Client(Text.NatToDecimal(|clients| + 1), "", "", "", "", "", today, ""), f)]
  }

  function NotId(id: string): Client -> bool
  {
    (c: Client) => c.id != id
  }

  /** `handleDelete(id)`: every record with that id goes, the rest keep their order. */
  function WithClientDeleted(clients: seq<Client>, id: string): (r: seq<Client>)
    ensures forall i :: 0 <= i < |r| ==> r[i] in clients && r[i].id != id
    ensures forall i :: 0 <= i < |clients| && clients[i].id != id ==> clients[i] in r
    ensures Collections.SubsequenceOf(r, clients)
    ensures forall x :: multiset(r)[x] == if x.id != id then multiset(clients)[x] else 0
  {
    Collections.FilterIsSubsequence(clients, NotId(id));
    Collections.FilterCounts(clients, NotId(id));
    Collections.Filter(clients, NotId(id))
  }

  /** Opening a client for editing and saving without changes leaves the list as it was. */
  lemma {:induction false} EditUnchangedIsNoOp(clients: seq<Client>, c: Client)
    requires c in clients
    requires forall i :: 0 <= i < |clients| && clients[i].id == c.id ==> clients[i] == c
    ensures WithClientEdited(clients, c.id, FormOf(c)) == clients
  {
  }

  /** Ids are `length + 1`, so after a delete a new client can take the id of one
      still listed; editing either then overwrites both. */
  lemma AddAfterDeleteReusesId(f: ClientForm, today: string, a: Client, b: Client)
    requires a.id == "1" && b.id == "2"
    ensures var after := WithClientAdded(WithClientDeleted([a, b], "1"), f, today);
            |after| == 2 && after[0].id == after[1].id == "2"
  {
    assert [a, b] == [a] + [b];
    Collections.FilterConcat([a], [b], NotId("1"));
    assert Collections.Filter([a], NotId("1")) == [];
    assert Collections.Filter([b], NotId("1")) == [b];
    assert WithClientDeleted([a, b], "1") == [b];
    assert Text.NatToDecimal(2) == "2";
  }

  /** The state of the Clients page. */
  class ClientsPage {
    var clients: seq<Client>
    var search: string
    var open: bool
    var editingClient: Collections.Option<Client>
    var formData: ClientForm

    constructor (initial: seq<Client>)
      ensures clients == initial && search == "" && !open && editingClient.None? && formData == BlankForm
    {
      clients := initial;
      search, open := "", false;
      editingClient := Collections.None;
      formData := BlankForm;
    }

    function Shown(): (r: seq<Client>)
      reads this
      ensures |r| <= |clients|
    {
      FilteredClients(clients, search)
    }

    /** `handleOpenDialog(client)`, with `None` for the call without a client. */
    method OpenDialog(client: Collections.Option<Client>)
      modifies this
      ensures client.Some? ==> formData == FormOf(client.value) && editingClient == client
      ensures client.None? ==> formData == BlankForm && editingClient.None?
      ensures open && clients == old(clients) && search == old(search)
    {
      if client.Some? {
        formData := FormOf(client.value);
        editingClient := client;
      } else {
        formData := BlankForm;
        editingClient := Collections.None;
      }
      open := true;
    }

    method Change(field: TextField, value: string)
      modifies this
      ensures formData == WithTextField(old(formData), field, value)
      ensures clients == old(clients) && editingClient == old(editingClient) && open == old(open) && search == old(search)
    {
      formData := WithTextField(formData, field, value);
    }

    method CurrencyChange(value: string)
      modifies this
      ensures formData == old(formData).(currency := value)
      ensures clients == old(clients) && editingClient == old(editingClient) && open == old(open) && search == old(search)
    {
      formData := formData.(currency := value);
    }

    /** `handleSubmit`; `today` is the creation date a new client receives. */
    method Submit(today: string)
      modifies this
      ensures old(editingClient).Some? ==> clients == WithClientEdited(old(clients), old(editingClient).value.id, old(formData))
      ensures old(editingClient).None? ==> clients == WithClientAdded(old(clients), old(formData), today)
      ensures !open && formData == old(formData) && editingClient == old(editingClient) && search == old(search)
    {
      if editingClient.Some? {
        clients := WithClientEdited(clients, editingClient.value.id, formData);
      } else {
        clients := WithClientAdded(clients, formData, today);
      }
      open := false;
    }

    method Delete(id: string)
      modifies this
      ensures clients == WithClientDeleted(old(clients), id)
      ensures formData == old(formData) && editingClient == old(editingClient) && open == old(open) && search == old(search)
    {
      clients := WithClientDeleted(clients, id);
    }
  }
}
