/**
 * The bakery agent: a fixed menu, and tools that record orders and table
 * reservations, each reporting itself to the client as one data event.
 * Prices are held in cents.
 */
module Bakery {
  import opened Wrappers
  import opened Text
  import opened Json
  import opened Events
  import opened Stream
  import opened Conversation
  import opened Agents

  const Name: string := "bakery"
  const Welcome: string := "Welcome to Sunrise Bakery! What can I get started for you?"

  /** The menu, in cents: 3.50, 2.25, 18.00 and 6.00. */
  const Menu: map<string, nat> := map["croissant" := 350, "baguette" := 225, "chocolate cake" := 1800, "sourdough" := 600]

  datatype OrderRecord = OrderRecord(item: string, quantity: int, totalCents: int)
  datatype Reservation = Reservation(name: string, time: string, guests: int)

  /** `f"{amount:.2f}"` for an amount of `cents` hundredths. */
  function Money(cents: int): string {
    var n := if cents < 0 then -cents else cents;
    (if cents < 0 then "-" else "") + NatToDecimal(n / 100) + "." + [DigitChar(n % 100 / 10), DigitChar(n % 10)]
  }

  /** The two decimals of `Money`, read with the whole part, give back the amount. */
  lemma MoneyDigits(cents: int)
    ensures var n := if cents < 0 then -cents else cents;
            var whole := NatToDecimal(n / 100);
            var frac := [DigitChar(n % 100 / 10), DigitChar(n % 10)];
            && Money(cents) == (if cents < 0 then "-" else "") + whole + "." + frac
            && DecimalValue(whole + frac) == n
  {
    var n := if cents < 0 then -cents else cents;
    var whole := NatToDecimal(n / 100);
    var a, b := DigitChar(n % 100 / 10), DigitChar(n % 10);
    DecimalValueOfNat(n / 100);
    AppendDigit(whole, a);
    AppendDigit(whole + [a], b);
    assert whole + [a] + [b] == whole + [a, b];
    SplitCents(n);
  }

  /** Reading one more digit multiplies by ten and adds it. */
  lemma AppendDigit(ds: string, c: char)
    requires forall i :: 0 <= i < |ds| ==> IsDigit(ds[i])
    requires IsDigit(c)
    ensures forall i :: 0 <= i < |ds + [c]| ==> IsDigit((ds + [c])[i])
    ensures DecimalValue(ds + [c]) == DecimalValue(ds) * 10 + DigitValue(c)
  {
    assert (ds + [c])[..|ds|] == ds;
  }

  lemma SplitCents(n: nat)
    ensures (n / 100 * 10 + n % 100 / 10) * 10 + n % 10 == n
  {
    var q, r := n / 100, n % 100;
    assert n == q * 100 + r;
    assert r == r / 10 * 10 + r % 10;
    assert n % 10 == r % 10;
  }

  function Apology(item: string): string {
    "Sorry, we do not have " + item + " today."
  }

  function Confirmation(quantity: int, item: string, totalCents: int): string {
    "Order confirmed: " + IntToDecimal(quantity) + " x " + item + " for $" + Money(totalCents) + "."
  }

  function Booked(r: Reservation): string {
    "Reservation booked for " + r.name + " at " + r.time + " for " + IntToDecimal(r.guests) + " guests."
  }

  function ListMenuEvent(): Members {
    [("tool", JStr("list_menu")), ("status", JStr("called"))]
  }

  function MakeOrderEvent(item: string, quantity: int, result: string): Members {
    [("tool", JStr("make_order")), ("args", JObject([("item", JStr(item)), ("quantity", JInt(quantity))])),
     ("result", JStr(result))]
  }

  function ReservationJson(r: Reservation): Members {
    [("name", JStr(r.name)), ("time", JStr(r.time)), ("guests", JInt(r.guests))]
  }

  function BookTableEvent(r: Reservation, result: string): Members {
    [("tool", JStr("book_table")), ("args", JObject(ReservationJson(r))), ("result", JStr(result))]
  }

  function StartScript(): seq<Emission> {
    [EmitTts(Welcome), EmitEnd]
  }

  class BakeryAgent {
    const model: string
    const menu: map<string, nat>
    var orders: seq<OrderRecord>
    var reservations: seq<Reservation>

    constructor (model: string)
      ensures this.model == model && menu == Menu && orders == [] && reservations == []
    {
      this.model := model;
      menu := Menu;
      orders := [];
      reservations := [];
    }

    /** `list_menu`: report the call and return the menu. */
    method ListMenu(stream: StreamHelper) returns (r: map<string, nat>)
      modifies stream.controller.queue
      ensures r == menu
      ensures stream.State() == Enqueued(old(stream.State()), DataFrame(stream.turnId, ListMenuEvent()))
    {
      stream.Data(ListMenuEvent());
      r := menu;
    }

    /**
     * `make_order`: an item on the menu (compared in lower case) adds one order
     * for the lower-cased item with its total; any other item adds nothing and
     * is apologised for. Either way one data event reports the call.
     */
    method MakeOrder(stream: StreamHelper, item: string, quantity: int) returns (result: string)
      modifies this, stream.controller.queue
      ensures reservations == old(reservations)
      ensures Lower(item) !in menu ==> orders == old(orders) && result == Apology(item)
      ensures Lower(item) in menu ==>
        var total := menu[Lower(item)] * quantity;
        orders == old(orders) + [OrderRecord(Lower(item), quantity, total)]
        && result == Confirmation(quantity, Lower(item), total)
      ensures stream.State() == Enqueued(old(stream.State()), DataFrame(stream.turnId, MakeOrderEvent(item, quantity, result)))
    {
      var normalized := Lower(item);
      if normalized !in menu {
        result := Apology(item);
      } else {
        var total := menu[normalized] * quantity;
        orders := orders + [OrderRecord(normalized, quantity, total)];
        result := Confirmation(quantity, normalized, total);
      }
      stream.Data(MakeOrderEvent(item, quantity, result));
    }

    /** `book_table`: always adds one reservation, and one data event reports it. */
    method BookTable(stream: StreamHelper, name: string, time: string, guests: int) returns (result: string)
      modifies this, stream.controller.queue
      ensures orders == old(orders)
      ensures reservations == old(reservations) + [Reservation(name, time, guests)]
      ensures result == Booked(Reservation(name, time, guests))
      ensures stream.State() == Enqueued(old(stream.State()),
                DataFrame(stream.turnId, BookTableEvent(Reservation(name, time, guests), result)))
    {
      var reservation := Reservation(name, time, guests);
      reservations := reservations + [reservation];
      result := Booked(reservation);
      stream.Data(BookTableEvent(reservation, result));
    }

    method HandleSessionStart(payload: Payload, stream: StreamHelper)
      requires payload.SessionStart?
      modifies stream, stream.controller, stream.controller.queue
      ensures stream.State() == Run(old(stream.State()), stream.turnId, StartScript())
    {
      ghost var s0 := stream.State();
      stream.Tts(Welcome);
      RunStep(s0, stream.turnId, [], EmitTts(Welcome));
      stream.End();
      RunStep(s0, stream.turnId, [EmitTts(Welcome)], EmitEnd);
      assert [EmitTts(Welcome)] + [EmitEnd] == StartScript();
    }

    /** `handle_session_end` forgets every order and reservation. */
    method HandleSessionEnd(payload: Payload)
      requires payload.SessionEnd?
      modifies this
      ensures orders == [] && reservations == []
    {
      orders := [];
      reservations := [];
    }
  }

  /**
   * The bakery agent as the webhook runs it. Its message handler is a model
   * run, supplied here as `run`.
   */
  function Factory(run: (Payload, seq<ModelMessage>) -> Reply): (f: Agents.Factory)
    ensures forall model :: f(model).className == "BakeryAgent" && f(model).model == model
                         && DisplayName(f(model)) == Name && f(model).onMessage == run
  {
    (model: string) => Agent("BakeryAgent", Some(Name), model, (p: Payload) => Handler(StartScript(), Completed), run)
  }

  /** `@agent("bakery")`, with the model run as `run`. */
  method Register(registry: Registry, run: (Payload, seq<ModelMessage>) -> Reply)
    requires registry.Valid()
    modifies registry
    ensures registry.Valid()
    ensures registry.entries == old(registry.entries)[Name := Factory(run)]
  {
    LowerOfLowercase(Name);
    var _ := registry.Decorate(Name, Factory(run));
  }

  /** Every tool event is a JSON object with distinct keys that names its tool. */
  lemma ToolEventsWellFormed(item: string, quantity: int, result: string, r: Reservation)
    ensures WellFormed(JObject(ListMenuEvent())) && Get(ListMenuEvent(), "tool") == Some(JStr("list_menu"))
    ensures WellFormed(JObject(MakeOrderEvent(item, quantity, result)))
         && Get(MakeOrderEvent(item, quantity, result), "tool") == Some(JStr("make_order"))
    ensures WellFormed(JObject(BookTableEvent(r, result)))
         && Get(BookTableEvent(r, result), "tool") == Some(JStr("book_table"))
  {
    GetOfDistinct(ListMenuEvent(), 0);
    GetOfDistinct(MakeOrderEvent(item, quantity, result), 0);
    GetOfDistinct(BookTableEvent(r, result), 0);
  }

  /** A croissant order: two cost 7.00. */
  lemma TwoCroissants()
    ensures Confirmation(2, "croissant", Menu["croissant"] * 2) == "Order confirmed: 2 x croissant for $7.00."
  {
    assert Menu["croissant"] * 2 == 700;
    SevenDollars();
    assert IntToDecimal(2) == [DigitChar(2)] == "2";
    var head := "Order confirmed: " + "2" + " x ";
    assert head == "Order confirmed: 2 x ";
    var tail := "croissant" + " for $" + "7.00" + ".";
    assert tail == "croissant for $7.00.";
    assert head + tail == "Order confirmed: 2 x croissant for $7.00.";
  }

  lemma SevenDollars()
    ensures Money(700) == "7.00"
  {
    assert NatToDecimal(700 / 100) == [DigitChar(7)] == "7";
    assert [DigitChar(700 % 100 / 10), DigitChar(700 % 10)] == "00";
  }
}
