/** The state of the sales page's "Nueva Venta" form and the handlers that
    change it. The draft sale (`cliente`, `clienteId`, `productos`, `estado`)
    and the scratch inputs of the product picker (`selectedProduct`,
    `quantity`) are fields that each handler reassigns, as the page's state
    setters do; the catalog snapshots (`products`, `clients`) are fields set
    from what the endpoints returned. */
module SaleFormModel {
  import opened OrderLines

  /** How a submission attempt ends before any request is made. */
  datatype SubmitOutcome = Ready | EmptyOrder | MissingClient

  const Pendiente: string := "Pendiente"

  class SaleForm {
    var cliente: string
    var clienteId: Option<int>
    var productos: seq<LineItem>
    var estado: string
    var selectedProduct: Option<int>
    var quantity: int
    var products: seq<Product>
    var clients: seq<Client>

    /** The draft has one line per product, each with at least one unit, and the
        picker only ever offers available products. */
    ghost predicate Valid()
      reads this
    {
      WellFormed(productos) && forall p :: p in products ==> p.estado == Disponible
    }

    /** The page's initial state: an empty pending draft, nothing selected, quantity 1, no catalog loaded yet. */
    constructor ()
      ensures Valid()
      ensures cliente == "" && clienteId == None && productos == [] && estado == Pendiente
      ensures selectedProduct == None && quantity == 1
      ensures products == [] && clients == []
    {
      cliente, clienteId, productos, estado := "", None, [], Pendiente;
      selectedProduct, quantity := None, 1;
      products, clients := [], [];
    }

    /** `loadProducts`: keeps only the products whose status is `Disponible`. */
    method LoadProducts(response: seq<Product>)
      requires Valid()
      modifies this
      ensures Valid()
      ensures products == AvailableProducts(response)
      ensures forall p :: p in products <==> p in response && p.estado == Disponible
      ensures cliente == old(cliente) && clienteId == old(clienteId) && productos == old(productos)
      ensures estado == old(estado) && selectedProduct == old(selectedProduct) && quantity == old(quantity)
      ensures clients == old(clients)
    {
      products := AvailableProducts(response);
    }

    /** `loadClients`: takes the client list as returned. */
    method LoadClients(response: seq<Client>)
      requires Valid()
      modifies this
      ensures Valid()
      ensures clients == response
      ensures cliente == old(cliente) && clienteId == old(clienteId) && productos == old(productos)
      ensures estado == old(estado) && selectedProduct == old(selectedProduct) && quantity == old(quantity)
      ensures products == old(products)
    {
      clients := response;
    }

    /** The client picker's change handler: records the chosen id and the name of the
        first client with that id, or the empty name when there is none. */
    method SelectClient(value: Option<int>)
      requires Valid()
      modifies this
      ensures Valid()
      ensures clienteId == value
      ensures value.None? ==> cliente == ""
      ensures value.Some? && (forall c :: c in clients ==> c.id != value.value) ==> cliente == ""
      ensures value.Some? && (exists c :: c in clients && c.id == value.value) ==>
        exists i :: 0 <= i < |clients| && clients[i].id == value.value && clients[i].nombre == cliente &&
                    forall j :: 0 <= j < i ==> clients[j].id != value.value
      ensures productos == old(productos) && estado == old(estado)
      ensures selectedProduct == old(selectedProduct) && quantity == old(quantity)
      ensures products == old(products) && clients == old(clients)
    {
      var client := if value.None? then None else Find(clients, ClientId, value.value);
      clienteId := value;
      cliente := if client.Some? then client.value.nombre else "";
    }

    /** The product picker's change handler. */
    method SelectProduct(value: Option<int>)
      requires Valid()
      modifies this
      ensures Valid()
      ensures selectedProduct == value
      ensures cliente == old(cliente) && clienteId == old(clienteId) && productos == old(productos)
      ensures estado == old(estado) && quantity == old(quantity)
      ensures products == old(products) && clients == old(clients)
    {
      selectedProduct := value;
    }

    /** The quantity input's change handler, `parseInt(value) || 1`: an unparsable
        entry (`None`) or 0 becomes 1, anything else, negatives included, is kept. */
    method SetQuantity(parsed: Option<int>)
      requires Valid()
      modifies this
      ensures Valid()
      ensures parsed.None? || parsed == Some(0) ==> quantity == 1
      ensures parsed.Some? && parsed.value != 0 ==> quantity == parsed.value
      ensures quantity != 0
      ensures cliente == old(cliente) && clienteId == old(clienteId) && productos == old(productos)
      ensures estado == old(estado) && selectedProduct == old(selectedProduct)
      ensures products == old(products) && clients == old(clients)
    {
      quantity := if parsed.None? || parsed.value == 0 then 1 else parsed.value;
    }

    /** The status picker's change handler. */
    method SetEstado(value: string)
      requires Valid()
      modifies this
      ensures Valid()
      ensures estado == value
      ensures cliente == old(cliente) && clienteId == old(clienteId) && productos == old(productos)
      ensures selectedProduct == old(selectedProduct) && quantity == old(quantity)
      ensures products == old(products) && clients == old(clients)
    {
      estado := value;
    }

    /** `handleAddProduct`. The request is checked against the picker's catalog (see
        `ValidateAdd`); a rejected request changes nothing; an accepted one merges into
        or appends to the lines (see `AddLine`) and clears the picker. */
    method AddProduct() returns (outcome: AddOutcome)
      requires Valid()
      modifies this
      ensures Valid()
      ensures outcome == ValidateAdd(old(products), old(selectedProduct), old(quantity))
      ensures outcome.Accepted? ==>
        productos == AddLine(old(productos), outcome.product, old(quantity)) &&
        outcome.product.estado == Disponible &&
        selectedProduct == None && quantity == 1
      ensures !outcome.Accepted? ==>
        productos == old(productos) && selectedProduct == old(selectedProduct) && quantity == old(quantity)
      ensures cliente == old(cliente) && clienteId == old(clienteId) && estado == old(estado)
      ensures products == old(products) && clients == old(clients)
    {
      if selectedProduct.None? || quantity < 1 {
        return InvalidSelection;
      }
      var found := Find(products, ProductId, selectedProduct.value);
      if found.None? {
        return UnknownProduct;
      }
      var product := found.value;
      if quantity > product.stock {
        return InsufficientStock(product.stock);
      }
      ghost var before := productos;
      var existing := Find(productos, LineId, product.id);
      assert existing.Some? <==> HasLine(productos, product.id);
      if existing.Some? {
        productos := MergeQuantity(productos, product.id, quantity);
      } else {
        productos := productos + [NewLine(product, quantity)];
      }
      assert productos == AddLine(before, product, quantity);
      selectedProduct := None;
      quantity := 1;
      outcome := Accepted(product);
    }

    /** `handleRemoveProduct`: drops the lines of product `id`. */
    method RemoveProduct(id: int)
      requires Valid()
      modifies this
      ensures Valid()
      ensures productos == RemoveLines(old(productos), id)
      ensures cliente == old(cliente) && clienteId == old(clienteId) && estado == old(estado)
      ensures selectedProduct == old(selectedProduct) && quantity == old(quantity)
      ensures products == old(products) && clients == old(clients)
    {
      RemovePreservesWellFormed(productos, id);
      productos := RemoveLines(productos, id);
    }

    /** The validation part of `handleSubmit`: an empty draft is refused first, then a
        draft without a client name; only a draft passing both would be sent. Nothing changes. */
    method Submit() returns (outcome: SubmitOutcome)
      ensures outcome == EmptyOrder <==> productos == []
      ensures outcome == MissingClient <==> productos != [] && cliente == ""
      ensures outcome == Ready <==> productos != [] && cliente != ""
    {
      if |productos| == 0 {
        return EmptyOrder;
      }
      if cliente == "" {
        return MissingClient;
      }
      return Ready;
    }

    /** `resetForm`: an empty pending draft without a client, nothing selected, quantity 1. */
    method ResetForm()
      requires Valid()
      modifies this
      ensures Valid()
      ensures cliente == "" && clienteId == None && productos == [] && estado == Pendiente
      ensures selectedProduct == None && quantity == 1
      ensures Total(productos) == 0
      ensures products == old(products) && clients == old(clients)
    {
      cliente, clienteId, productos, estado := "", None, [], Pendiente;
      selectedProduct, quantity := None, 1;
    }
  }
}
