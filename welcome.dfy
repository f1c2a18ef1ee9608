/**
 * The customer directory of the welcome page and its WhatsApp link. The directory is
 * built from the invoice list and then the quotation list (each as the server lists
 * them), keyed by the trimmed mobile exactly as stored, and sorted by last purchase,
 * most recent first. `created_at` is an abstract timestamp compared as an integer.
 */
module Welcome {
  import opened Wrappers
  import opened Sequences
  import opened Text
  import opened Store
  import opened Sorting

  datatype Customer = Customer(name: string, mobile: string, lastPurchase: int)

  /** What the directory reads from one document: its key (the trimmed mobile), display name and date. */
  datatype Visit = Visit(mobile: string, name: string, createdAt: int)

  /** `customer_name || 'Unknown'`. */
  function DisplayName(name: string): (n: string)
    ensures n != ""
    ensures name == "" ==> n == "Unknown"
    ensures name != "" ==> n == name
  {
    if name == "" then "Unknown" else name
  }

  function VisitOf(doc: Document): Visit {
    Visit(Trim(doc.data.customerMobile), DisplayName(doc.data.customerName), doc.createdAt)
  }

  function Visits(docs: seq<Document>): (r: seq<Visit>)
    ensures |r| == |docs| && forall i :: 0 <= i < |docs| ==> r[i] == VisitOf(docs[i])
  {
    seq(|docs|, i requires 0 <= i < |docs| => VisitOf(docs[i]))
  }

  function CustomerMobile(c: Customer): string {
    c.mobile
  }

  /** `customerMap.has(mobile)` / `customerMap.get(mobile)`. */
  function FindCustomer(cs: seq<Customer>, mobile: string): (r: Option<nat>)
    ensures r.None? <==> forall k :: 0 <= k < |cs| ==> cs[k].mobile != mobile
    ensures r.Some? ==> r.value < |cs| && cs[r.value].mobile == mobile
  {
    FindLastKey(cs, CustomerMobile, mobile)
  }

  ghost predicate UniqueMobiles(cs: seq<Customer>) {
    forall i, j :: 0 <= i < j < |cs| ==> cs[i].mobile != cs[j].mobile
  }

  /** One step of the invoice pass: a new key adds an entry; a known key only moves its date forward. */
  function SeeInvoice(cs: seq<Customer>, v: Visit): seq<Customer> {
    if v.mobile == "" then cs
    else match FindCustomer(cs, v.mobile)
      case None => cs + [Customer(v.name, v.mobile, v.createdAt)]
      case Some(k) => if v.createdAt > cs[k].lastPurchase then cs[k := cs[k].(lastPurchase := v.createdAt)] else cs
  }

  /** One step of the quotation pass: only a new key adds an entry. */
  function SeeQuotation(cs: seq<Customer>, v: Visit): seq<Customer> {
    if v.mobile == "" || FindCustomer(cs, v.mobile).Some? then cs
    else cs + [Customer(v.name, v.mobile, v.createdAt)]
  }

  function InvoicePass(cs: seq<Customer>, vs: seq<Visit>): seq<Customer> {
    if vs == [] then cs else SeeInvoice(InvoicePass(cs, vs[..|vs| - 1]), vs[|vs| - 1])
  }

  function QuotationPass(cs: seq<Customer>, vs: seq<Visit>): seq<Customer> {
    if vs == [] then cs else SeeQuotation(QuotationPass(cs, vs[..|vs| - 1]), vs[|vs| - 1])
  }

  /** The map's values in insertion order, before sorting. */
  function Directory(invoices: seq<Visit>, quotations: seq<Visit>): seq<Customer> {
    QuotationPass(InvoicePass([], invoices), quotations)
  }

  function LastPurchase(c: Customer): int { c.lastPurchase }

  function MobileOf(c: Customer): string { c.mobile }

  /** `loadCustomers`: both passes over the fetched lists, then the sort by last purchase. */
  method LoadCustomers(invoices: seq<Document>, quotations: seq<Document>) returns (customers: seq<Customer>)
    ensures customers == SortDesc(Directory(Visits(invoices), Visits(quotations)), LastPurchase)
    ensures UniqueMobiles(customers)
    ensures forall i, j :: 0 <= i < j < |customers| ==> customers[i].lastPurchase >= customers[j].lastPurchase
  {
    var map_: seq<Customer> := [];
    for j := 0 to |invoices|
      invariant map_ == InvoicePass([], Visits(invoices[..j]))
    {
      VisitsPrefix(invoices, j);
      map_ := AddInvoice(map_, invoices[j]);
    }
    assert invoices[..|invoices|] == invoices;
    ghost var afterInvoices := map_;
    for j := 0 to |quotations|
      invariant map_ == QuotationPass(afterInvoices, Visits(quotations[..j]))
    {
      VisitsPrefix(quotations, j);
      map_ := AddQuotation(map_, quotations[j]);
    }
    assert quotations[..|quotations|] == quotations;
    customers := SortDesc(map_, LastPurchase);
    SortedDirectoryUnique(Visits(invoices), Visits(quotations));
  }

  /** One more document extends the visits by that document's visit. */
  lemma VisitsPrefix(docs: seq<Document>, j: nat)
    requires j < |docs|
    ensures Visits(docs[..j + 1]) == Visits(docs[..j]) + [VisitOf(docs[j])]
  {
  }

  /** Sorting the directory keeps one entry per key. */
  lemma SortedDirectoryUnique(invoices: seq<Visit>, quotations: seq<Visit>)
    ensures UniqueMobiles(SortDesc(Directory(invoices, quotations), LastPurchase))
  {
    var d := Directory(invoices, quotations);
    DirectoryUnique(invoices, quotations);
    assert UniqueBy(d, MobileOf);
    SortKeepsUniqueBy(d, LastPurchase, MobileOf);
    assert UniqueBy(SortDesc(d, LastPurchase), MobileOf);
  }

  /** The body of the invoice loop: a non-blank key is added, or its date moved forward when later. */
  method AddInvoice(map_: seq<Customer>, doc: Document) returns (next: seq<Customer>)
    ensures next == SeeInvoice(map_, VisitOf(doc))
  {
    next := map_;
    var mobile := Trim(doc.data.customerMobile);
    if mobile != "" {
      var name := if doc.data.customerName == "" then "Unknown" else doc.data.customerName;
      var found := FindCustomer(next, mobile);
      if found.None? {
        next := next + [Customer(name, mobile, doc.createdAt)];
      } else {
        var k := found.value;
        if doc.createdAt > next[k].lastPurchase {
          next := next[k := next[k].(lastPurchase := doc.createdAt)];
        }
      }
    }
  }

  /** The body of the quotation loop: only a new, non-blank key is added. */
  method AddQuotation(map_: seq<Customer>, doc: Document) returns (next: seq<Customer>)
    ensures next == SeeQuotation(map_, VisitOf(doc))
  {
    next := map_;
    var mobile := Trim(doc.data.customerMobile);
    if mobile != "" {
      var name := if doc.data.customerName == "" then "Unknown" else doc.data.customerName;
      if FindCustomer(next, mobile).None? {
        next := next + [Customer(name, mobile, doc.createdAt)];
      }
    }
  }

  // ----- reference definitions and what the directory holds -----

  /** The first visit in `vs` with key `m`. */
  function FirstWith(vs: seq<Visit>, m: string): (r: Option<nat>)
    ensures r.None? <==> forall i :: 0 <= i < |vs| ==> vs[i].mobile != m
    ensures r.Some? ==> r.value < |vs| && vs[r.value].mobile == m
    ensures r.Some? ==> forall i :: 0 <= i < r.value ==> vs[i].mobile != m
  {
    if vs == [] then None
    else
      var r := FirstWith(vs[..|vs| - 1], m);
      if r.Some? then r
      else if vs[|vs| - 1].mobile == m then Some(|vs| - 1)
      else None
  }

  /** A visit with key `m` and the latest date among those with that key. */
  function LatestWith(vs: seq<Visit>, m: string): (r: Option<nat>)
    ensures r.None? <==> forall i :: 0 <= i < |vs| ==> vs[i].mobile != m
    ensures r.Some? ==> r.value < |vs| && vs[r.value].mobile == m
    ensures r.Some? ==> forall i :: 0 <= i < |vs| && vs[i].mobile == m ==> vs[i].createdAt <= vs[r.value].createdAt
  {
    if vs == [] then None
    else
      var r := LatestWith(vs[..|vs| - 1], m);
      var n := |vs| - 1;
      if vs[n].mobile != m then r
      else if r.None? || vs[n].createdAt > vs[r.value].createdAt then Some(n)
      else r
  }

  lemma {:induction false} FindUniqueCustomer(cs: seq<Customer>, m: string, k: nat)
    requires UniqueMobiles(cs) && k < |cs| && cs[k].mobile == m
    ensures FindCustomer(cs, m) == Some(k)
  {
    if k < |cs| - 1 {
      FindUniqueCustomer(cs[..|cs| - 1], m, k);
    }
  }

  /** One invoice: the other keys' entries stay as they were; its own key gains an entry or a later date. */
  lemma SeeInvoiceStep(cs: seq<Customer>, v: Visit, m: string)
    requires UniqueMobiles(cs)
    ensures UniqueMobiles(SeeInvoice(cs, v))
    ensures FindCustomer(SeeInvoice(cs, v), m).Some? <==> FindCustomer(cs, m).Some? || (m != "" && v.mobile == m)
    ensures FindCustomer(cs, m).Some? && v.mobile != m ==>
      SeeInvoice(cs, v)[FindCustomer(SeeInvoice(cs, v), m).value] == cs[FindCustomer(cs, m).value]
    ensures m != "" && v.mobile == m && FindCustomer(cs, m).None? ==>
      SeeInvoice(cs, v)[FindCustomer(SeeInvoice(cs, v), m).value] == Customer(v.name, m, v.createdAt)
    ensures m != "" && v.mobile == m && FindCustomer(cs, m).Some? ==>
      var old_ := cs[FindCustomer(cs, m).value];
      SeeInvoice(cs, v)[FindCustomer(SeeInvoice(cs, v), m).value]
        == old_.(lastPurchase := if v.createdAt > old_.lastPurchase then v.createdAt else old_.lastPurchase)
  {
    if v.mobile != "" {
      match FindCustomer(cs, v.mobile)
      case None =>
        AppendCustomer(cs, Customer(v.name, v.mobile, v.createdAt), m);
      case Some(k) =>
        if v.createdAt > cs[k].lastPurchase {
          MoveDate(cs, k, v.createdAt, m);
        }
    }
  }

  /** `customerMap.set` of a new key: the key is found at the end, every other lookup is unchanged. */
  lemma AppendCustomer(cs: seq<Customer>, c: Customer, m: string)
    requires UniqueMobiles(cs) && FindCustomer(cs, c.mobile).None?
    ensures UniqueMobiles(cs + [c])
    ensures FindCustomer(cs + [c], m) == if m == c.mobile then Some(|cs|) else FindCustomer(cs, m)
  {
    assert (cs + [c])[..|cs|] == cs;
  }

  /** Moving one entry's date keeps the keys and every lookup. */
  lemma MoveDate(cs: seq<Customer>, k: nat, date: int, m: string)
    requires UniqueMobiles(cs) && k < |cs|
    ensures UniqueMobiles(cs[k := cs[k].(lastPurchase := date)])
    ensures FindCustomer(cs[k := cs[k].(lastPurchase := date)], m) == FindCustomer(cs, m)
  {
    var r := cs[k := cs[k].(lastPurchase := date)];
    assert forall i :: 0 <= i < |cs| ==> r[i].mobile == cs[i].mobile;
    var f := FindCustomer(cs, m);
    if f.Some? {
      FindUniqueCustomer(r, m, f.value);
    }
  }

  /** One quotation: existing entries stay as they were; a new non-empty key gains an entry. */
  lemma SeeQuotationStep(cs: seq<Customer>, v: Visit, m: string)
    requires UniqueMobiles(cs)
    ensures UniqueMobiles(SeeQuotation(cs, v))
    ensures |cs| <= |SeeQuotation(cs, v)| && SeeQuotation(cs, v)[..|cs|] == cs
    ensures FindCustomer(SeeQuotation(cs, v), m).Some? <==> FindCustomer(cs, m).Some? || (m != "" && v.mobile == m)
    ensures FindCustomer(cs, m).Some? ==> FindCustomer(SeeQuotation(cs, v), m) == FindCustomer(cs, m)
    ensures m != "" && v.mobile == m && FindCustomer(cs, m).None? ==>
      SeeQuotation(cs, v)[FindCustomer(SeeQuotation(cs, v), m).value] == Customer(v.name, m, v.createdAt)
  {
    if v.mobile != "" && FindCustomer(cs, v.mobile).None? {
      var c := Customer(v.name, v.mobile, v.createdAt);
      AppendCustomer(cs, c, m);
      assert (cs + [c])[..|cs|] == cs;
    }
  }

  lemma {:induction false} InvoicePassUnique(vs: seq<Visit>)
    ensures UniqueMobiles(InvoicePass([], vs))
  {
    if vs != [] {
      InvoicePassUnique(vs[..|vs| - 1]);
      SeeInvoiceStep(InvoicePass([], vs[..|vs| - 1]), vs[|vs| - 1], "");
    }
  }

  /**
   * After the invoice pass, a key has an entry iff it is non-empty and some invoice has it; the entry's
   * name is that of the first such invoice and its date the latest such invoice's date.
   */
  lemma {:induction false} InvoicePassEntry(vs: seq<Visit>, m: string)
    ensures FindCustomer(InvoicePass([], vs), m).Some? <==> m != "" && FirstWith(vs, m).Some?
    ensures FindCustomer(InvoicePass([], vs), m).Some? ==>
      InvoicePass([], vs)[FindCustomer(InvoicePass([], vs), m).value]
        == Customer(vs[FirstWith(vs, m).value].name, m, vs[LatestWith(vs, m).value].createdAt)
  {
    if vs != [] {
      var init := vs[..|vs| - 1];
      InvoicePassEntry(init, m);
      InvoicePassUnique(init);
      SeeInvoiceStep(InvoicePass([], init), vs[|vs| - 1], m);
      assert forall i :: 0 <= i < |init| ==> vs[i] == init[i];
    }
  }

  lemma {:induction false} QuotationPassUnique(cs: seq<Customer>, vs: seq<Visit>)
    requires UniqueMobiles(cs)
    ensures UniqueMobiles(QuotationPass(cs, vs))
    ensures |cs| <= |QuotationPass(cs, vs)| && QuotationPass(cs, vs)[..|cs|] == cs
  {
    if vs != [] {
      var init := vs[..|vs| - 1];
      QuotationPassUnique(cs, init);
      SeeQuotationStep(QuotationPass(cs, init), vs[|vs| - 1], "");
      var prev := QuotationPass(cs, init);
      assert SeeQuotation(prev, vs[|vs| - 1])[..|cs|] == prev[..|cs|];
    }
  }

  /** The quotation pass keeps every entry it finds and adds one for each new key, named and dated by its first quotation. */
  lemma {:induction false} QuotationPassEntry(cs: seq<Customer>, vs: seq<Visit>, m: string)
    requires UniqueMobiles(cs)
    ensures FindCustomer(QuotationPass(cs, vs), m).Some? <==>
      FindCustomer(cs, m).Some? || (m != "" && FirstWith(vs, m).Some?)
    ensures FindCustomer(cs, m).Some? ==> FindCustomer(QuotationPass(cs, vs), m) == FindCustomer(cs, m)
    ensures FindCustomer(cs, m).None? && FindCustomer(QuotationPass(cs, vs), m).Some? ==>
      QuotationPass(cs, vs)[FindCustomer(QuotationPass(cs, vs), m).value]
        == Customer(vs[FirstWith(vs, m).value].name, m, vs[FirstWith(vs, m).value].createdAt)
  {
    if vs != [] {
      var init := vs[..|vs| - 1];
      QuotationPassEntry(cs, init, m);
      QuotationPassUnique(cs, init);
      SeeQuotationStep(QuotationPass(cs, init), vs[|vs| - 1], m);
      assert forall i :: 0 <= i < |init| ==> vs[i] == init[i];
    }
  }

  lemma DirectoryUnique(invoices: seq<Visit>, quotations: seq<Visit>)
    ensures UniqueMobiles(Directory(invoices, quotations))
  {
    InvoicePassUnique(invoices);
    QuotationPassUnique(InvoicePass([], invoices), quotations);
  }

  /**
   * The directory entry for a key: present iff the key is non-empty and some invoice or quotation has it;
   * invoice-sourced entries keep the first invoice's name and the latest invoice date, and a
   * quotation-only entry takes its first quotation's name and date.
   */
  lemma DirectoryEntry(invoices: seq<Visit>, quotations: seq<Visit>, m: string)
    ensures FindCustomer(Directory(invoices, quotations), m).Some? <==>
      m != "" && (FirstWith(invoices, m).Some? || FirstWith(quotations, m).Some?)
    ensures m != "" && FirstWith(invoices, m).Some? ==>
      Directory(invoices, quotations)[FindCustomer(Directory(invoices, quotations), m).value]
        == Customer(invoices[FirstWith(invoices, m).value].name, m, invoices[LatestWith(invoices, m).value].createdAt)
    ensures m != "" && FirstWith(invoices, m).None? && FirstWith(quotations, m).Some? ==>
      Directory(invoices, quotations)[FindCustomer(Directory(invoices, quotations), m).value]
        == Customer(quotations[FirstWith(quotations, m).value].name, m, quotations[FirstWith(quotations, m).value].createdAt)
  {
    var cs := InvoicePass([], invoices);
    InvoicePassEntry(invoices, m);
    InvoicePassUnique(invoices);
    QuotationPassEntry(cs, quotations, m);
    QuotationPassUnique(cs, quotations);
    var f := FindCustomer(cs, m);
    if f.Some? {
      assert Directory(invoices, quotations)[f.value] == cs[f.value];
    }
  }

  // ----- the WhatsApp link -----

  /**
   * `sendWhatsApp`'s number: digits only, one leading '0' dropped, a leading "91" dropped when
   * more than ten digits remain, then accepted iff exactly ten are left, as "91" + those ten.
   */
  function NormalizeMobile(mobile: string): Option<string> {
    var digits := Digits(mobile);
    var noZero := if |digits| > 0 && digits[0] == '0' then digits[1..] else digits;
    var local := if |noZero| > 10 && noZero[..2] == "91" then noZero[2..] else noZero;
    if |local| == 10 then Some("91" + local) else None
  }

  datatype WhatsAppError = EmptyMessage | InvalidMobile(mobile: string)

  /** What the page opens: the number and the personalised text (before URL encoding). */
  datatype WhatsAppLink = WhatsAppLink(number: string, text: string)

  /** The message check comes first; then the number is normalised step by step. */
  method SendWhatsApp(messageField: string, mobile: string, name: string) returns (r: Result<WhatsAppLink, WhatsAppError>)
    ensures Trim(messageField) == "" ==> r == Failure(EmptyMessage)
    ensures Trim(messageField) != "" && NormalizeMobile(mobile).None? ==> r == Failure(InvalidMobile(mobile))
    ensures Trim(messageField) != "" && NormalizeMobile(mobile).Some? ==>
      r == Success(WhatsAppLink(NormalizeMobile(mobile).value, "Hi " + name + "! " + Trim(messageField)))
  {
    var message := Trim(messageField);
    if message == "" {
      return Failure(EmptyMessage);
    }
    var cleanMobile := Digits(mobile);
    if |cleanMobile| > 0 && cleanMobile[0] == '0' {
      cleanMobile := cleanMobile[1..];
    }
    if |cleanMobile| >= 2 && cleanMobile[..2] == "91" && |cleanMobile| > 10 {
      cleanMobile := cleanMobile[2..];
    }
    if |cleanMobile| == 10 {
      cleanMobile := "91" + cleanMobile;
    } else {
      return Failure(InvalidMobile(mobile));
    }
    r := Success(WhatsAppLink(cleanMobile, "Hi " + name + "! " + message));
  }

  /** An accepted number is "91" followed by ten digits. */
  lemma NormalizeShape(mobile: string)
    requires NormalizeMobile(mobile).Some?
    ensures |NormalizeMobile(mobile).value| == 12 && NormalizeMobile(mobile).value[..2] == "91"
    ensures AllDigits(NormalizeMobile(mobile).value)
  {
    DigitsFacts(mobile);
  }

  /** A normalised number normalises to itself. */
  lemma NormalizeIdempotent(mobile: string)
    requires NormalizeMobile(mobile).Some?
    ensures NormalizeMobile(NormalizeMobile(mobile).value) == NormalizeMobile(mobile)
  {
    var r := NormalizeMobile(mobile).value;
    NormalizeShape(mobile);
    DigitsFacts(r);
    assert r[0] == '9';
    assert r[2..] == NormalizeMobile(mobile).value[2..];
  }

  /** Fewer than ten digits, or more than thirteen, never make a number. */
  lemma NormalizeRejectsLength(mobile: string)
    requires |Digits(mobile)| < 10 || |Digits(mobile)| > 13
    ensures NormalizeMobile(mobile).None?
  {
  }

  /** Ten digits not starting with '0' (a leading "91" included) are kept as they are. */
  lemma NormalizeKeepsTenDigits(mobile: string)
    requires AllDigits(mobile) && |mobile| == 10 && mobile[0] != '0'
    ensures NormalizeMobile(mobile) == Some("91" + mobile)
  {
    DigitsFacts(mobile);
  }

  /** A number with a "+91" prefix and a space: "+91 9876543213". */
  lemma NormalizeCountryCodeVector()
    ensures NormalizeMobile("+91 " + "9876543213") == Some("919876543213")
  {
    DigitsOfCountryCode();
    var d := "919876543213";
    assert d[0] == '9' && d[..2] == "91";
    assert "91" + d[2..] == d;
  }

  lemma DigitsOfCountryCode()
    ensures Digits("+91 " + "9876543213") == "919876543213"
  {
    DigitsAppendDigits("+91 ", "9876543213");
    assert Digits("+91 ") == "91";
    assert "91" + "9876543213" == "919876543213";
  }

  /** A number written with brackets, a space and a hyphen: "(987) 654-3215". */
  lemma NormalizePunctuatedVector()
    ensures NormalizeMobile("(987) " + "654-3215") == Some("919876543215")
  {
    DigitsOfPunctuated();
    var d := "9876543215";
    assert d[0] == '9' && "91" + d == "919876543215";
  }

  lemma DigitsOfPunctuated()
    ensures Digits("(987) " + "654-3215") == "9876543215"
  {
    var s1 := "(" + "987";
    var s2 := s1 + ") ";
    var s3 := s2 + "654";
    var s4 := s3 + "-";
    var s5 := s4 + "3215";
    assert Digits("(") == [];
    DigitsAppendDigits("(", "987");
    DigitsAppendOthers(s1, ") ");
    DigitsAppendDigits(s2, "654");
    DigitsAppendOthers(s3, "-");
    DigitsAppendDigits(s4, "3215");
    assert s5 == "(987) " + "654-3215";
    assert "987" + "654" + "3215" == "9876543215";
  }

  /** A number written with a hyphen: "98765-43214". */
  lemma NormalizeHyphenVector()
    ensures NormalizeMobile("98765" + "-" + "43214") == Some("919876543214")
  {
    assert Digits("98765") == "98765" by {
      DigitsAppendDigits([], "98765");
      assert [] + "98765" == "98765";
    }
    DigitsAppendOthers("98765", "-");
    DigitsAppendDigits("98765" + "-", "43214");
    var d := "98765" + "43214";
    assert d == "9876543214";
    assert d[0] == '9' && "91" + d == "919876543214";
  }
}
