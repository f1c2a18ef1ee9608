/**
 * GET /api/dashboard/top-items: per item name, the quantity sold and the revenue at the
 * listed price over every invoice line, then the five names with the largest quantity.
 * The stats object is kept as a sequence in insertion order with one entry per name.
 */
module Reports {
  import opened Wrappers
  import opened Sequences
  import opened Records
  import opened Store
  import opened Sorting

  datatype ItemStat = ItemStat(name: string, totalQuantity: int, totalRevenue: real)

  const TopCount: nat := 5

  function StatName(stat: ItemStat): string {
    stat.name
  }

  /** `itemStats[name]`: where the entry for `name` sits, if there is one. */
  function FindStat(stats: seq<ItemStat>, name: string): (r: Option<nat>)
    ensures r.None? <==> forall k :: 0 <= k < |stats| ==> stats[k].name != name
    ensures r.Some? ==> r.value < |stats| && stats[r.value].name == name
  {
    FindLastKey(stats, StatName, name)
  }

  ghost predicate UniqueNames(stats: seq<ItemStat>) {
    forall i, j :: 0 <= i < j < |stats| ==> stats[i].name != stats[j].name
  }

  /** `item.price * item.quantity`: a line's revenue at its listed price. */
  function Revenue(line: Line): real {
    line.price * line.quantity as real
  }

  /** What one invoice line does to the stats: add to its name's entry, or append a new entry. */
  function Record(stats: seq<ItemStat>, line: Line): seq<ItemStat> {
    match FindStat(stats, line.name)
    case None => stats + [ItemStat(line.name, line.quantity, Revenue(line))]
    case Some(k) =>
      stats[k := stats[k].(totalQuantity := stats[k].totalQuantity + line.quantity,
                           totalRevenue := stats[k].totalRevenue + Revenue(line))]
  }

  /** The stats after the lines of one invoice, taken in order. */
  function RecordAll(stats: seq<ItemStat>, lines: seq<Line>): seq<ItemStat> {
    if lines == [] then stats else Record(RecordAll(stats, lines[..|lines| - 1]), lines[|lines| - 1])
  }

  /** The stats after every invoice, taken in order. */
  function Stats(invoices: seq<Document>): seq<ItemStat> {
    if invoices == [] then []
    else RecordAll(Stats(invoices[..|invoices| - 1]), invoices[|invoices| - 1].data.items)
  }

  /** The answer: the stats sorted by quantity, largest first, cut to five. */
  function Top(invoices: seq<Document>): seq<ItemStat> {
    Take(SortDesc(Stats(invoices), (s: ItemStat) => s.totalQuantity), TopCount)
  }

  /** The handler: two nested loops build the stats, then sort and slice. */
  method TopItems(invoices: seq<Document>) returns (top: seq<ItemStat>)
    ensures top == Top(invoices)
    ensures |top| <= TopCount
    ensures UniqueNames(top)
    ensures forall i, j :: 0 <= i < j < |top| ==> top[i].totalQuantity >= top[j].totalQuantity
  {
    var stats: seq<ItemStat> := [];
    for j := 0 to |invoices|
      invariant stats == Stats(invoices[..j])
    {
      stats := RecordInvoice(stats, invoices[j].data.items);
      assert invoices[..j + 1][..j] == invoices[..j];
    }
    assert invoices[..|invoices|] == invoices;
    top := Take(SortDesc(stats, (s: ItemStat) => s.totalQuantity), TopCount);
    TopUnique(invoices);
  }

  /** The inner `forEach` over one invoice's lines. */
  method RecordInvoice(stats: seq<ItemStat>, lines: seq<Line>) returns (next: seq<ItemStat>)
    ensures next == RecordAll(stats, lines)
  {
    next := stats;
    for i := 0 to |lines|
      invariant next == RecordAll(stats, lines[..i])
    {
      assert lines[..i + 1][..i] == lines[..i];
      next := RecordLine(next, lines[i]);
    }
    assert lines[..|lines|] == lines;
  }

  /** The inner `forEach` callback: bump the entry for the line's name, or create it. */
  method RecordLine(stats: seq<ItemStat>, line: Line) returns (next: seq<ItemStat>)
    ensures next == Record(stats, line)
  {
    var found := FindStat(stats, line.name);
    if found.Some? {
      var k := found.value;
      next := stats[k := stats[k].(totalQuantity := stats[k].totalQuantity + line.quantity,
                                   totalRevenue := stats[k].totalRevenue + Revenue(line))];
    } else {
      next := stats + [ItemStat(line.name, line.quantity, Revenue(line))];
    }
  }

  // ----- what the stats hold -----

  /** The quantity recorded for `name`, 0 when there is no entry. */
  function QuantityOf(stats: seq<ItemStat>, name: string): int {
    match FindStat(stats, name)
    case None => 0
    case Some(k) => stats[k].totalQuantity
  }

  function RevenueOf(stats: seq<ItemStat>, name: string): real {
    match FindStat(stats, name)
    case None => 0.0
    case Some(k) => stats[k].totalRevenue
  }

  /** Reference sums over a list of lines. */
  function LineQuantity(lines: seq<Line>, name: string): int {
    if lines == [] then 0
    else LineQuantity(lines[..|lines| - 1], name) + (if lines[|lines| - 1].name == name then lines[|lines| - 1].quantity else 0)
  }

  function LineRevenue(lines: seq<Line>, name: string): real {
    if lines == [] then 0.0
    else LineRevenue(lines[..|lines| - 1], name)
         + (if lines[|lines| - 1].name == name then Revenue(lines[|lines| - 1]) else 0.0)
  }

  function InvoiceQuantity(invoices: seq<Document>, name: string): int {
    if invoices == [] then 0
    else InvoiceQuantity(invoices[..|invoices| - 1], name) + LineQuantity(invoices[|invoices| - 1].data.items, name)
  }

  function InvoiceRevenue(invoices: seq<Document>, name: string): real {
    if invoices == [] then 0.0
    else InvoiceRevenue(invoices[..|invoices| - 1], name) + LineRevenue(invoices[|invoices| - 1].data.items, name)
  }

  /** Some line of some invoice has that name. */
  predicate Sold(invoices: seq<Document>, name: string) {
    invoices != [] && (Sold(invoices[..|invoices| - 1], name) || HasLine(invoices[|invoices| - 1].data.items, name))
  }

  lemma RecordFacts(stats: seq<ItemStat>, line: Line, name: string)
    requires UniqueNames(stats)
    ensures UniqueNames(Record(stats, line))
    ensures FindStat(Record(stats, line), name).Some? <==> FindStat(stats, name).Some? || line.name == name
  {
    match FindStat(stats, line.name)
    case None =>
      AppendStat(stats, ItemStat(line.name, line.quantity, Revenue(line)), name);
    case Some(k) =>
      SameNames(stats, Record(stats, line), name);
  }

  /** A new entry under a new name keeps names distinct and is the only lookup that changes. */
  lemma AppendStat(stats: seq<ItemStat>, e: ItemStat, name: string)
    requires UniqueNames(stats) && FindStat(stats, e.name).None?
    ensures UniqueNames(stats + [e])
    ensures FindStat(stats + [e], name).Some? <==> FindStat(stats, name).Some? || e.name == name
  {
    assert (stats + [e])[..|stats|] == stats;
  }

  /** Stats with the same names, position by position, answer every lookup alike. */
  lemma SameNames(stats: seq<ItemStat>, r: seq<ItemStat>, name: string)
    requires |r| == |stats| && forall i :: 0 <= i < |r| ==> r[i].name == stats[i].name
    ensures UniqueNames(stats) ==> UniqueNames(r)
    ensures FindStat(r, name).Some? <==> FindStat(stats, name).Some?
  {
  }

  lemma RecordAmounts(stats: seq<ItemStat>, line: Line, name: string)
    requires UniqueNames(stats)
    ensures QuantityOf(Record(stats, line), name) == QuantityOf(stats, name) + (if line.name == name then line.quantity else 0)
    ensures RevenueOf(Record(stats, line), name)
            == RevenueOf(stats, name) + (if line.name == name then Revenue(line) else 0.0)
  {
    var r := Record(stats, line);
    RecordFacts(stats, line, name);
    match FindStat(stats, line.name)
    case None =>
      assert r[..|r| - 1] == stats;
    case Some(k) =>
      var f := FindStat(stats, name);
      if f.Some? {
        FindUnique(r, name, f.value);
      }
  }

  /** With one entry per name, the lookup finds that entry. */
  lemma {:induction false} FindUnique(stats: seq<ItemStat>, name: string, k: nat)
    requires UniqueNames(stats) && k < |stats| && stats[k].name == name
    ensures FindStat(stats, name) == Some(k)
  {
    if k < |stats| - 1 {
      FindUnique(stats[..|stats| - 1], name, k);
    }
  }

  lemma {:induction false} RecordAllUnique(stats: seq<ItemStat>, lines: seq<Line>)
    requires UniqueNames(stats)
    ensures UniqueNames(RecordAll(stats, lines))
  {
    if lines != [] {
      RecordAllUnique(stats, lines[..|lines| - 1]);
      RecordFacts(RecordAll(stats, lines[..|lines| - 1]), lines[|lines| - 1], "");
    }
  }

  lemma {:induction false} RecordAllQuantity(stats: seq<ItemStat>, lines: seq<Line>, name: string)
    requires UniqueNames(stats)
    ensures QuantityOf(RecordAll(stats, lines), name) == QuantityOf(stats, name) + LineQuantity(lines, name)
  {
    if lines != [] {
      var init := lines[..|lines| - 1];
      RecordAllQuantity(stats, init, name);
      RecordAllUnique(stats, init);
      RecordAmounts(RecordAll(stats, init), lines[|lines| - 1], name);
    }
  }

  lemma {:induction false} RecordAllRevenue(stats: seq<ItemStat>, lines: seq<Line>, name: string)
    requires UniqueNames(stats)
    ensures RevenueOf(RecordAll(stats, lines), name) == RevenueOf(stats, name) + LineRevenue(lines, name)
  {
    if lines != [] {
      var init := lines[..|lines| - 1];
      RecordAllRevenue(stats, init, name);
      RecordAllUnique(stats, init);
      RecordAmounts(RecordAll(stats, init), lines[|lines| - 1], name);
    }
  }

  /** Some line has that name. */
  predicate HasLine(lines: seq<Line>, name: string) {
    lines != [] && (HasLine(lines[..|lines| - 1], name) || lines[|lines| - 1].name == name)
  }

  lemma {:induction false} RecordAllPresence(stats: seq<ItemStat>, lines: seq<Line>, name: string)
    requires UniqueNames(stats)
    ensures FindStat(RecordAll(stats, lines), name).Some? <==> FindStat(stats, name).Some? || HasLine(lines, name)
  {
    if lines != [] {
      var init := lines[..|lines| - 1];
      RecordAllPresence(stats, init, name);
      RecordAllUnique(stats, init);
      RecordFacts(RecordAll(stats, init), lines[|lines| - 1], name);
    }
  }

  lemma {:induction false} StatsUnique(invoices: seq<Document>)
    ensures UniqueNames(Stats(invoices))
  {
    if invoices != [] {
      StatsUnique(invoices[..|invoices| - 1]);
      RecordAllUnique(Stats(invoices[..|invoices| - 1]), invoices[|invoices| - 1].data.items);
    }
  }

  lemma {:induction false} StatsQuantity(invoices: seq<Document>, name: string)
    ensures QuantityOf(Stats(invoices), name) == InvoiceQuantity(invoices, name)
  {
    if invoices != [] {
      var init := invoices[..|invoices| - 1];
      StatsQuantity(init, name);
      StatsUnique(init);
      RecordAllQuantity(Stats(init), invoices[|invoices| - 1].data.items, name);
    }
  }

  lemma {:induction false} StatsRevenue(invoices: seq<Document>, name: string)
    ensures RevenueOf(Stats(invoices), name) == InvoiceRevenue(invoices, name)
  {
    if invoices != [] {
      var init := invoices[..|invoices| - 1];
      StatsRevenue(init, name);
      StatsUnique(init);
      RecordAllRevenue(Stats(init), invoices[|invoices| - 1].data.items, name);
    }
  }

  lemma {:induction false} StatsPresence(invoices: seq<Document>, name: string)
    ensures FindStat(Stats(invoices), name).Some? <==> Sold(invoices, name)
  {
    if invoices != [] {
      var init := invoices[..|invoices| - 1];
      var last := invoices[|invoices| - 1].data.items;
      StatsPresence(init, name);
      StatsUnique(init);
      RecordAllPresence(Stats(init), last, name);
    }
  }

  /** The stats hold one entry per name sold, with that name's total quantity and revenue over all invoices. */
  lemma StatsAreTotals(invoices: seq<Document>, name: string)
    ensures UniqueNames(Stats(invoices))
    ensures QuantityOf(Stats(invoices), name) == InvoiceQuantity(invoices, name)
    ensures RevenueOf(Stats(invoices), name) == InvoiceRevenue(invoices, name)
    ensures FindStat(Stats(invoices), name).Some? <==> Sold(invoices, name)
  {
    StatsUnique(invoices);
    StatsQuantity(invoices, name);
    StatsRevenue(invoices, name);
    StatsPresence(invoices, name);
  }

  /** A name sold but not in the answer sold no more than any name in it. */
  lemma TopHasLargest(invoices: seq<Document>, name: string)
    requires Sold(invoices, name)
    ensures FindStat(Top(invoices), name).Some?
            || forall y :: y in Top(invoices) ==> y.totalQuantity >= InvoiceQuantity(invoices, name)
  {
    var stats := Stats(invoices);
    StatsAreTotals(invoices, name);
    var k := FindStat(stats, name).value;
    TopOfSorted(stats, (s: ItemStat) => s.totalQuantity, TopCount, stats[k]);
    var top := Top(invoices);
    if stats[k] in top {
      var i :| 0 <= i < |top| && top[i] == stats[k];
    }
  }

  function NameOf(s: ItemStat): string { s.name }

  lemma TopUnique(invoices: seq<Document>)
    ensures UniqueNames(Top(invoices))
  {
    var stats := Stats(invoices);
    StatsUnique(invoices);
    assert UniqueBy(stats, NameOf);
    SortKeepsUniqueBy(stats, (s: ItemStat) => s.totalQuantity, NameOf);
    var top := Top(invoices);
    assert forall i :: 0 <= i < |top| ==> top[i] == SortDesc(stats, (s: ItemStat) => s.totalQuantity)[i];
  }
}
