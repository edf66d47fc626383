/**
 * The mock side of the data layer: which table a query text names, and the mock rows
 * returned for it when no hosted database is configured.
 */
module MockDatabase {
  import Text
  import opened JsObject

  datatype Table = NoTable | Karigars | KarigarOrders | Clients | Inventory | Transactions | HarvestPlans {
    /** The text whose presence in a query selects the table. */
    function Clause(): string {
      match this
      case NoTable => ""
      case Karigars => "from karigars"
      case KarigarOrders => "from karigar_orders"
      case Clients => "from clients"
      case Inventory => "from inventory"
      case Transactions => "from transactions"
      case HarvestPlans => "from harvest_plans"
    }
  }

  /** The tables in the order the query text is tested for them. */
  const TestOrder: seq<Table> := [Karigars, KarigarOrders, Clients, Inventory, Transactions, HarvestPlans]

  /** `text.toLowerCase().trim()`. */
  function Normalize(text: string): string {
    Text.Trim(Text.Lower(text))
  }

  /** Which clauses occur in the text, in test order: `lowerText.includes(clause)` for each table. */
  function Hits(lowerText: string): (h: seq<bool>)
    ensures |h| == |TestOrder|
    ensures forall j :: 0 <= j < |TestOrder| ==> h[j] == Text.Contains(lowerText, TestOrder[j].Clause())
  {
    seq(|TestOrder|, j requires 0 <= j < |TestOrder| => Text.Contains(lowerText, TestOrder[j].Clause()))
  }

  /** The if/else-if chain over the tests' outcomes. */
  function Choose(h: seq<bool>): (t: Table)
    requires |h| == |TestOrder|
  {
    if h[0] then Karigars
    else if h[1] then KarigarOrders
    else if h[2] then Clients
    else if h[3] then Inventory
    else if h[4] then Transactions
    else if h[5] then HarvestPlans
    else NoTable
  }

  /** Table-name extraction on the normalised text. */
  function ExtractTable(lowerText: string): (t: Table)
    ensures t != NoTable ==> Text.Contains(lowerText, t.Clause())
  {
    var h := Hits(lowerText);
    var t := Choose(h);
    ChooseIsFirstHit(h);
    t
  }

  /** `h[j]` is the first test that succeeds. */
  predicate FirstHit(h: seq<bool>, j: int) {
    0 <= j < |h| && h[j] && forall k :: 0 <= k < j ==> !h[k]
  }

  /** The chain picks the first table whose test succeeds, and no table when none does. */
  lemma ChooseIsFirstHit(h: seq<bool>)
    requires |h| == |TestOrder|
    ensures Choose(h) == NoTable <==> forall j :: 0 <= j < |h| ==> !h[j]
    ensures Choose(h) != NoTable ==> exists j :: FirstHit(h, j) && TestOrder[j] == Choose(h)
  {
    var t := Choose(h);
    if h[0] {
      assert FirstHit(h, 0);
    } else if h[1] {
      assert FirstHit(h, 1);
    } else if h[2] {
      assert FirstHit(h, 2);
    } else if h[3] {
      assert FirstHit(h, 3);
    } else if h[4] {
      assert FirstHit(h, 4);
    } else if h[5] {
      assert FirstHit(h, 5);
    }
  }

  /** The extracted table is the first in test order whose clause occurs; no table iff none occurs. */
  lemma ExtractTableIsFirstMatch(lowerText: string)
    ensures ExtractTable(lowerText) == NoTable <==>
      forall j :: 0 <= j < |TestOrder| ==> !Text.Contains(lowerText, TestOrder[j].Clause())
    ensures ExtractTable(lowerText) != NoTable ==>
      exists j :: FirstHit(Hits(lowerText), j) && TestOrder[j] == ExtractTable(lowerText)
  {
    ChooseIsFirstHit(Hits(lowerText));
  }

  /** The table named by a query text, as the mock path computes it. */
  function MockTable(text: string): Table {
    ExtractTable(Normalize(text))
  }

  /**
   * The table the hosted-database path computes: only a query that starts with "select"
   * (after the same normalisation) names a table there.
   */
  function DbTable(text: string): (t: Table)
    ensures t != NoTable ==> |Normalize(text)| >= 6 && Normalize(text)[..6] == "select"
  {
    var lowerText := Normalize(text);
    if |lowerText| >= 6 && lowerText[..6] == "select" then ExtractTable(lowerText) else NoTable
  }

  /** On a select query both paths choose the same table. */
  lemma PathsAgreeOnSelect(text: string)
    requires |Normalize(text)| >= 6 && Normalize(text)[..6] == "select"
    ensures DbTable(text) == MockTable(text)
  {
  }

  /**
   * Trimming never decides the table: every clause starts and ends with a letter, so it
   * occurs in the trimmed text exactly when it occurs in the untrimmed one.
   */
  lemma TrimDoesNotMatter(text: string)
    ensures MockTable(text) == ExtractTable(Text.Lower(text))
  {
    var s := Text.Lower(text);
    forall j | 0 <= j < |TestOrder| ensures Hits(Text.Trim(s))[j] == Hits(s)[j] {
      ClauseHasLetterEnds(TestOrder[j]);
      Text.ContainsTrim(s, TestOrder[j].Clause());
    }
    assert Hits(Text.Trim(s)) == Hits(s);
  }

  /** Every clause starts with "f" and ends with a letter. */
  lemma ClauseHasLetterEnds(t: Table)
    requires t != NoTable
    ensures var c := t.Clause(); c != [] && !Text.IsSpace(c[0]) && !Text.IsSpace(c[|c| - 1])
  {
  }

  /** A query on the orders table is not taken for the karigars table, although that is tested first. */
  lemma OrdersQueryClassified()
    ensures ExtractTable("select * from karigar_orders") == KarigarOrders
  {
    var t := "select * from karigar_orders";
    assert Text.OccursAt(t, "from karigar_orders", 9);
    forall i | 0 <= i ensures !Text.OccursAt(t, "from karigars", i) {
      if i + 13 <= |t| {
        if i == 9 {
          assert t[i..i + 13][12] == '_';
        } else {
          assert t[i..i + 13][0] == t[i] != 'f';
        }
      }
    }
  }

  /** The result shape of a query. */
  datatype QueryResult = QueryResult(rows: seq<Obj>, rowCount: nat)

  function KarigarRows(): (rows: seq<Obj>)
    ensures |rows| == 3
  {
    [
      map["id" := Num(1.0), "name" := Str("Rajesh Kumar"), "phone" := Str("+91-9876543210"),
          "specialization" := Str("Gold Jewelry"), "status" := Str("active"), "rating" := Num(4.8)],
      map["id" := Num(2.0), "name" := Str("Priya Sharma"), "phone" := Str("+91-9876543211"),
          "specialization" := Str("Diamond Setting"), "status" := Str("active"), "rating" := Num(4.9)],
      map["id" := Num(3.0), "name" := Str("Amit Patel"), "phone" := Str("+91-9876543212"),
          "specialization" := Str("Silver Work"), "status" := Str("busy"), "rating" := Num(4.7)]]
  }

  function KarigarOrderRows(): (rows: seq<Obj>)
    ensures |rows| == 2
  {
    [
      map["id" := Num(1.0), "karigar_id" := Num(1.0), "item_type" := Str("Ring"), "gold_weight" := Num(5.2),
          "diamond_count" := Num(1.0), "status" := Str("in_progress"), "due_date" := Str("2024-01-15")],
      map["id" := Num(2.0), "karigar_id" := Num(2.0), "item_type" := Str("Necklace"), "gold_weight" := Num(12.5),
          "diamond_count" := Num(8.0), "status" := Str("pending"), "due_date" := Str("2024-01-20")]]
  }

  function ClientRows(): (rows: seq<Obj>)
    ensures |rows| == 2
  {
    [
      map["id" := Num(1.0), "name" := Str("Anita Desai"), "phone" := Str("+91-9876543220"),
          "email" := Str("anita@example.com"), "address" := Str("Mumbai"), "status" := Str("active")],
      map["id" := Num(2.0), "name" := Str("Vikram Singh"), "phone" := Str("+91-9876543221"),
          "email" := Str("vikram@example.com"), "address" := Str("Delhi"), "status" := Str("active")]]
  }

  function InventoryRows(): (rows: seq<Obj>)
    ensures |rows| == 2
  {
    [
      map["id" := Num(1.0), "item_name" := Str("Gold Ring"), "category" := Str("Rings"), "quantity" := Num(25.0),
          "weight" := Num(125.5), "purity" := Str("22K"), "status" := Str("available")],
      map["id" := Num(2.0), "item_name" := Str("Diamond Necklace"), "category" := Str("Necklaces"),
          "quantity" := Num(8.0), "weight" := Num(45.2), "purity" := Str("18K"), "status" := Str("available")]]
  }

  function TransactionRows(): (rows: seq<Obj>)
    ensures |rows| == 2
  {
    [
      map["id" := Num(1.0), "type" := Str("sale"), "amount" := Num(50000.0), "client_id" := Num(1.0),
          "date" := Str("2024-01-10"), "status" := Str("completed")],
      map["id" := Num(2.0), "type" := Str("purchase"), "amount" := Num(25000.0), "supplier_id" := Num(1.0),
          "date" := Str("2024-01-08"), "status" := Str("completed")]]
  }

  function HarvestPlanRows(): (rows: seq<Obj>)
    ensures |rows| == 2
  {
    [
      map["id" := Num(1.0), "client_id" := Num(1.0), "plan_name" := Str("Wedding Collection"),
          "target_amount" := Num(100000.0), "current_amount" := Num(25000.0), "status" := Str("active")],
      map["id" := Num(2.0), "client_id" := Num(2.0), "plan_name" := Str("Anniversary Special"),
          "target_amount" := Num(75000.0), "current_amount" := Num(15000.0), "status" := Str("active")]]
  }

  /** The fixed mock rows of each table; every named table has some. */
  function MockRows(t: Table): (rows: seq<Obj>)
    ensures t == NoTable <==> rows == []
  {
    match t
    case NoTable => []
    case Karigars => KarigarRows()
    case KarigarOrders => KarigarOrderRows()
    case Clients => ClientRows()
    case Inventory => InventoryRows()
    case Transactions => TransactionRows()
    case HarvestPlans => HarvestPlanRows()
  }

  /** `queryMockData`: the named table's rows and their number; an unnamed table gives none. */
  function QueryMockData(text: string): (r: QueryResult)
    ensures r.rowCount == |r.rows|
    ensures r.rows == MockRows(MockTable(text))
  {
    var data := MockRows(MockTable(text));
    QueryResult(data, |data|)
  }

  /** A query naming no known table gets no rows, and one naming a table always gets some. */
  lemma QueryRowsIffTableNamed(text: string)
    ensures QueryMockData(text).rowCount == 0 <==>
      forall j :: 0 <= j < |TestOrder| ==> !Text.Contains(Normalize(text), TestOrder[j].Clause())
  {
    ExtractTableIsFirstMatch(Normalize(text));
  }
}
