/** The orders screen: the order list, status updates, and the choice of status badge,
    delivery label and currency name. */
module Orders {
  import opened Common
  import opened Http
  import opened CurrencyContext

  datatype Order = Order(id: nat, status: string, receive: string, payment: string, description: string,
                         name: string, phoneNumber: string, price: string)

  /** `orders.map(o => o.id === id ? {...o, status} : o)` */
  function SetStatus(orders: seq<Order>, id: nat, status: string): (r: seq<Order>)
    ensures |r| == |orders|
    ensures forall i :: 0 <= i < |orders| && orders[i].id == id ==> r[i] == orders[i].(status := status)
    ensures forall i :: 0 <= i < |orders| && orders[i].id != id ==> r[i] == orders[i]
    decreases |orders|
  {
    if orders == [] then []
    else [if orders[0].id == id then orders[0].(status := status) else orders[0]] + SetStatus(orders[1..], id, status)
  }

  /** A second update of the same order overrides the first. */
  lemma SetStatusTwice(orders: seq<Order>, id: nat, s1: string, s2: string)
    ensures SetStatus(SetStatus(orders, id, s1), id, s2) == SetStatus(orders, id, s2)
  {
    var l := SetStatus(SetStatus(orders, id, s1), id, s2);
    var r := SetStatus(orders, id, s2);
    assert |l| == |r|;
    forall i | 0 <= i < |l|
      ensures l[i] == r[i]
    {
      assert SetStatus(orders, id, s1)[i].id == orders[i].id;
    }
  }

  /** Updates of different orders do not interfere: they commute. */
  lemma SetStatusCommutes(orders: seq<Order>, a: nat, sa: string, b: nat, sb: string)
    requires a != b
    ensures SetStatus(SetStatus(orders, a, sa), b, sb) == SetStatus(SetStatus(orders, b, sb), a, sa)
  {
    var l := SetStatus(SetStatus(orders, a, sa), b, sb);
    var r := SetStatus(SetStatus(orders, b, sb), a, sa);
    assert |l| == |r|;
    forall i | 0 <= i < |l|
      ensures l[i] == r[i]
    {
      assert SetStatus(orders, a, sa)[i].id == orders[i].id;
      assert SetStatus(orders, b, sb)[i].id == orders[i].id;
    }
  }

  /** The badge class of a status code: pending, sent, delivered, cancelled, or gray. */
  function GetStatusBadgeClass(status: string): (cls: string)
    ensures status == "p" ==> cls == "bg-amber-100 text-amber-800"
    ensures status == "s" ==> cls == "bg-emerald-100 text-emerald-800"
    ensures status == "d" ==> cls == "bg-blue-100 text-blue-800"
    ensures status == "c" ==> cls == "bg-red-100 text-red-800"
    ensures status !in ["p", "s", "d", "c"] ==> cls == "bg-gray-100 text-gray-800"
  {
    if status == "p" then "bg-amber-100 text-amber-800"
    else if status == "s" then "bg-emerald-100 text-emerald-800"
    else if status == "d" then "bg-blue-100 text-blue-800"
    else if status == "c" then "bg-red-100 text-red-800"
    else "bg-gray-100 text-gray-800"
  }

  const StatusCodes: seq<string> := ["p", "s", "d", "c"]

  /** The badge tells statuses apart: two statuses share a badge exactly when they are the
      same code or both unknown, which share the gray fallback. */
  lemma BadgeIdentifiesStatus(s1: string, s2: string)
    ensures GetStatusBadgeClass(s1) == GetStatusBadgeClass(s2) <==>
            s1 == s2 || (s1 !in StatusCodes && s2 !in StatusCodes)
  {
  }

  datatype DeliveryType = Pickup | Delivery

  /** `receive === "p"` is pickup; every other value is shown as delivery. */
  function ReceiveType(receive: string): (d: DeliveryType)
    ensures d == Pickup <==> receive == "p"
  {
    if receive == "p" then Pickup else Delivery
  }

  /** The currency name for a UI language (`""` standing for no language, read as "en"):
      Uzbek for a "uz…" language, Russian for "ru…", English otherwise. */
  function CurrencyName(c: Currency, language: string): (name: string)
    ensures StartsWith(language, "uz") ==> name == c.nameUz
    ensures !StartsWith(language, "uz") && StartsWith(language, "ru") ==> name == c.nameRu
    ensures !StartsWith(language, "uz") && !StartsWith(language, "ru") ==> name == c.nameEn
  {
    var lang := if language == "" then "en" else language;
    assert lang == "en" ==> lang[0] == 'e';
    if StartsWith(lang, "uz") then c.nameUz
    else if StartsWith(lang, "ru") then c.nameRu
    else c.nameEn
  }

  /** The currency name is always one of the currency's three names, and an unset UI
      language reads as English. */
  lemma CurrencyNameIsOneOfThree(c: Currency, language: string)
    ensures CurrencyName(c, language) in [c.nameUz, c.nameRu, c.nameEn]
    ensures CurrencyName(c, "") == c.nameEn
  {
  }

  /** The price label: the two-decimal amount `amount` followed by the selected currency's
      name, or `$` before the amount when no currency is selected. */
  function FormatPrice(amount: string, selected: Option<Currency>, language: string): (shown: string)
    ensures selected.Some? ==> shown == amount + " " + CurrencyName(selected.value, language)
    ensures selected.None? ==> shown == "$" + amount
  {
    if selected.Some? then amount + " " + CurrencyName(selected.value, language) else "$" + amount
  }

  /** The amount can be read back from the label: it leads it when a currency is selected,
      and follows the `$` otherwise. */
  lemma FormatPriceKeepsAmount(amount: string, selected: Option<Currency>, language: string)
    ensures var shown := FormatPrice(amount, selected, language);
            if selected.Some? then |shown| > |amount| && shown[..|amount|] == amount
            else shown[0] == '$' && shown[1..] == amount
  {
  }

  const AllOrdersPath := "/order/all/"
  const StatusPrefix := "/order/status/"

  class OrdersPage {
    var orders: seq<Order>
    var loading: bool
    var selectedOrder: Option<Order>
    var isModalOpen: bool
    const client: Client

    constructor (client: Client)
      ensures this.client == client && orders == [] && loading && selectedOrder == None && !isModalOpen
    {
      this.client := client;
      orders := [];
      loading := true;
      selectedOrder := None;
      isModalOpen := false;
    }

    /** The mount effect: outside a browser nothing is fetched; otherwise an ok response
        replaces the list. `loading` is false afterwards either way. */
    method FetchOrders(inBrowser: bool, reply: Reply<seq<Order>>)
      modifies this, client
      ensures !inBrowser ==> client.sent == old(client.sent) && orders == old(orders)
      ensures inBrowser ==>
                client.sent == old(client.sent) + [Request(GET, AllOrdersPath, NoBody)]
                && orders == (if reply.Ok? then reply.body else old(orders))
      ensures !loading && selectedOrder == old(selectedOrder) && isModalOpen == old(isModalOpen)
    {
      if !inBrowser {
        loading := false;
        return;
      }
      client.Send(Request(GET, AllOrdersPath, NoBody));
      if reply.Ok? {
        orders := reply.body;
      }
      loading := false;
    }

    /** PATCH the status; on an ok response only the order with that id takes it, and the
        modal's order follows when it is the same order. A failure changes nothing. */
    method UpdateStatus(orderId: nat, status: string, reply: Reply<()>)
      modifies this, client
      ensures client.sent == old(client.sent)
                             + [Request(PATCH, ItemPath(StatusPrefix, orderId), Json([Field("status", Str(status))]))]
      ensures orders == (if reply.Ok? then SetStatus(old(orders), orderId, status) else old(orders))
      ensures reply.Ok? && old(selectedOrder).Some? && old(selectedOrder).value.id == orderId ==>
                selectedOrder == Some(old(selectedOrder).value.(status := status))
      ensures !(reply.Ok? && old(selectedOrder).Some? && old(selectedOrder).value.id == orderId) ==>
                selectedOrder == old(selectedOrder)
      ensures isModalOpen == old(isModalOpen) && loading == old(loading)
    {
      client.Send(Request(PATCH, ItemPath(StatusPrefix, orderId), Json([Field("status", Str(status))])));
      if !reply.Ok? {
        return;
      }
      orders := SetStatus(orders, orderId, status);
      if selectedOrder.Some? && selectedOrder.value.id == orderId {
        selectedOrder := Some(selectedOrder.value.(status := status));
      }
    }

    method OpenOrderModal(o: Order)
      modifies this
      ensures selectedOrder == Some(o) && isModalOpen && orders == old(orders)
    {
      selectedOrder := Some(o);
      isModalOpen := true;
    }

    method CloseOrderModal()
      modifies this
      ensures selectedOrder == None && !isModalOpen && orders == old(orders)
    {
      isModalOpen := false;
      selectedOrder := None;
    }
  }
}
