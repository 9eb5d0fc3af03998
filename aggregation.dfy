/** The aggregation engine shared by the payables dashboard and the reports:
    amount sums over row predicates, the derived payment status, and the
    name-keyed accumulators the report loops fold rows into. */
module Aggregation {
  import opened Tenancy
  import opened Calendar
  import opened Store
  import opened Sequences

  // ----------------------------------------------------------------- sums

  /** Sum of the amounts of the rows that satisfy `keep`, accumulated in row
      order (the `reduce` and `forEach` of the controllers). */
  function SumWhere(rows: seq<Payable>, keep: Payable -> bool): int
  {
    if rows == [] then 0
    else
      var last := rows[|rows| - 1];
      SumWhere(rows[..|rows| - 1], keep) + (if keep(last) then last.amount else 0)
  }

  lemma {:induction false} SumWhereAppend(a: seq<Payable>, b: seq<Payable>, keep: Payable -> bool)
    ensures SumWhere(a + b, keep) == SumWhere(a, keep) + SumWhere(b, keep)
  {
    if b != [] {
      var n := |b| - 1;
      assert (a + b)[..|a + b| - 1] == a + b[..n];
      SumWhereAppend(a, b[..n], keep);
    } else {
      assert a + b == a;
    }
  }

  lemma SumWhereSnoc(a: seq<Payable>, x: Payable, keep: Payable -> bool)
    ensures SumWhere(a + [x], keep) == SumWhere(a, keep) + (if keep(x) then x.amount else 0)
  {
    assert (a + [x])[..|a|] == a;
  }

  /** A predicate that is the disjoint union of two others sums to their sum. */
  lemma {:induction false} SumWhereSplit(rows: seq<Payable>, whole: Payable -> bool,
                                         left: Payable -> bool, right: Payable -> bool)
    requires forall p :: whole(p) <==> left(p) || right(p)
    requires forall p :: !(left(p) && right(p))
    ensures SumWhere(rows, whole) == SumWhere(rows, left) + SumWhere(rows, right)
  {
    if rows != [] {
      SumWhereSplit(rows[..|rows| - 1], whole, left, right);
    }
  }

  /** With no negative amounts, a weaker predicate never sums to less. */
  lemma {:induction false} SumWhereMonotone(rows: seq<Payable>, small: Payable -> bool, large: Payable -> bool)
    requires forall p :: small(p) ==> large(p)
    requires forall i :: 0 <= i < |rows| ==> rows[i].amount >= 0
    ensures SumWhere(rows, small) <= SumWhere(rows, large)
  {
    if rows != [] {
      SumWhereMonotone(rows[..|rows| - 1], small, large);
    }
  }

  /** Rows that no predicate keeps contribute nothing: an empty set sums to 0. */
  lemma {:induction false} SumWhereNone(rows: seq<Payable>, keep: Payable -> bool)
    requires forall i :: 0 <= i < |rows| ==> !keep(rows[i])
    ensures SumWhere(rows, keep) == 0
  {
    if rows != [] {
      SumWhereNone(rows[..|rows| - 1], keep);
    }
  }

  // ------------------------------------------------------- derived status

  /** The status the screens show: paid, else overdue when due before today,
      else open. */
  datatype Status = Paid | Overdue | Open

  function StatusOf(p: Payable, today: Date): (s: Status)
    ensures s == Paid <==> IsPaid(p)
    ensures s == Overdue <==> !IsPaid(p) && Before(p.dueDate, today)
  {
    if IsPaid(p) then Paid else if Before(p.dueDate, today) then Overdue else Open
  }

  predicate IsOverdue(p: Payable, today: Date) {
    !IsPaid(p) && Before(p.dueDate, today)
  }

  predicate IsDueOn(p: Payable, today: Date) {
    !IsPaid(p) && p.dueDate == today
  }

  predicate PaidWithin(p: Payable, lo: Date, hi: Date) {
    p.paymentDate.Some? && InWindow(p.paymentDate.value, lo, hi)
  }

  // The named sums below fix each predicate once, so that every view that
  // uses one denotes the same sum.

  function TotalAmount(rows: seq<Payable>): int {
    SumWhere(rows, (p: Payable) => true)
  }

  function PaidAmount(rows: seq<Payable>): int {
    SumWhere(rows, (p: Payable) => IsPaid(p))
  }

  function OpenAmount(rows: seq<Payable>): int {
    SumWhere(rows, (p: Payable) => !IsPaid(p))
  }

  function OverdueAmount(rows: seq<Payable>, today: Date): int {
    SumWhere(rows, (p: Payable) => IsOverdue(p, today))
  }

  function DueOnAmount(rows: seq<Payable>, today: Date): int {
    SumWhere(rows, (p: Payable) => IsDueOn(p, today))
  }

  function PaidWithinAmount(rows: seq<Payable>, lo: Date, hi: Date): int {
    SumWhere(rows, (p: Payable) => PaidWithin(p, lo, hi))
  }

  function DueWithinAmount(rows: seq<Payable>, lo: Date, hi: Date): int {
    SumWhere(rows, (p: Payable) => InWindow(p.dueDate, lo, hi))
  }

  function UnpaidDueWithinAmount(rows: seq<Payable>, lo: Date, hi: Date): int {
    SumWhere(rows, (p: Payable) => !IsPaid(p) && InWindow(p.dueDate, lo, hi))
  }

  function PaidDueWithinAmount(rows: seq<Payable>, lo: Date, hi: Date): int {
    SumWhere(rows, (p: Payable) => IsPaid(p) && InWindow(p.dueDate, lo, hi))
  }

  /** Every amount is counted once as paid or once as unpaid. */
  lemma PaidPlusOpenIsTotal(rows: seq<Payable>)
    ensures PaidAmount(rows) + OpenAmount(rows) == TotalAmount(rows)
  {
    SumWhereSplit(rows, (p: Payable) => true, (p: Payable) => IsPaid(p), (p: Payable) => !IsPaid(p));
  }

  /** The same inside a due-date window. */
  lemma WindowPaidPlusUnpaid(rows: seq<Payable>, lo: Date, hi: Date)
    ensures PaidDueWithinAmount(rows, lo, hi) + UnpaidDueWithinAmount(rows, lo, hi) == DueWithinAmount(rows, lo, hi)
  {
    SumWhereSplit(rows, (p: Payable) => InWindow(p.dueDate, lo, hi),
                  (p: Payable) => IsPaid(p) && InWindow(p.dueDate, lo, hi),
                  (p: Payable) => !IsPaid(p) && InWindow(p.dueDate, lo, hi));
  }

  // ---------------------------------------------------- dashboard tallies

  /** Running `{ paid, payable }` of one name in `stats.byUnit` / `stats.byCategory`. */
  datatype Tally = Tally(name: string, paid: int, payable: int)

  function TallyNames(ts: seq<Tally>): set<string> {
    if ts == [] then {} else {ts[0].name} + TallyNames(ts[1..])
  }

  /** No name appears in two entries. */
  predicate DistinctNames(ts: seq<Tally>) {
    ts == [] || (ts[0].name !in TallyNames(ts[1..]) && DistinctNames(ts[1..]))
  }

  function PaidSum(ts: seq<Tally>): int {
    if ts == [] then 0 else ts[0].paid + PaidSum(ts[1..])
  }

  function PayableSum(ts: seq<Tally>): int {
    if ts == [] then 0 else ts[0].payable + PayableSum(ts[1..])
  }

  /** What the tallies hold for the name `n` on the `paid` side: the entry
      of that name, or 0 when there is none. */
  function PaidFor(ts: seq<Tally>, n: string): int {
    if ts == [] then 0 else (if ts[0].name == n then ts[0].paid else 0) + PaidFor(ts[1..], n)
  }

  function PayableFor(ts: seq<Tally>, n: string): int {
    if ts == [] then 0 else (if ts[0].name == n then ts[0].payable else 0) + PayableFor(ts[1..], n)
  }

  /** Adds `amount` to the `paid` or `payable` side of the entry `name`,
      creating a zero entry at the end when the name is new (the order in
      which a JavaScript object keeps its keys). */
  function Credit(ts: seq<Tally>, name: string, amount: int, paid: bool): (r: seq<Tally>)
    ensures TallyNames(r) == TallyNames(ts) + {name}
    ensures DistinctNames(ts) ==> DistinctNames(r)
    ensures PaidSum(r) == PaidSum(ts) + (if paid then amount else 0)
    ensures PayableSum(r) == PayableSum(ts) + (if paid then 0 else amount)
  {
    if ts == [] then
      [if paid then Tally(name, amount, 0) else Tally(name, 0, amount)]
    else if ts[0].name == name then
      var t := ts[0];
      var r := [if paid then t.(paid := t.paid + amount) else t.(payable := t.payable + amount)] + ts[1..];
      assert r[1..] == ts[1..];
      r
    else
      var r := [ts[0]] + Credit(ts[1..], name, amount, paid);
      assert r[1..] == Credit(ts[1..], name, amount, paid);
      r
  }

  /** Crediting `name` adds the amount to that name's paid or payable side
      and leaves every other name's amounts as they were. */
  lemma {:induction false} CreditFor(ts: seq<Tally>, name: string, amount: int, paid: bool, n: string)
    ensures PaidFor(Credit(ts, name, amount, paid), n) == PaidFor(ts, n) + (if paid && n == name then amount else 0)
    ensures PayableFor(Credit(ts, name, amount, paid), n) == PayableFor(ts, n) + (if !paid && n == name then amount else 0)
  {
    var r := Credit(ts, name, amount, paid);
    if ts == [] {
      assert r[1..] == [];
    } else if ts[0].name == name {
      assert r[1..] == ts[1..];
    } else {
      CreditFor(ts[1..], name, amount, paid, n);
      assert r[1..] == Credit(ts[1..], name, amount, paid);
    }
  }

  /** The tallies after folding `js` into an empty accumulator. */
  function GroupTallies(js: seq<Joined>, key: Joined -> string): seq<Tally>
  {
    if js == [] then []
    else
      var last := js[|js| - 1];
      Credit(GroupTallies(js[..|js| - 1], key), key(last), last.row.amount, IsPaid(last.row))
  }

  function Keys(js: seq<Joined>, key: Joined -> string): set<string> {
    set j | j in js :: key(j)
  }

  lemma RowsOfSnoc(js: seq<Joined>)
    requires js != []
    ensures RowsOf(js) == RowsOf(js[..|js| - 1]) + [js[|js| - 1].row]
  {
  }

  /** Grouping loses no amount and counts none twice: the paid sides add up
      to the paid total, the payable sides to the unpaid total. */
  lemma {:induction false} GroupTalliesConserve(js: seq<Joined>, key: Joined -> string)
    ensures PaidSum(GroupTallies(js, key)) == PaidAmount(RowsOf(js))
    ensures PayableSum(GroupTallies(js, key)) == OpenAmount(RowsOf(js))
  {
    if js != [] {
      var init := js[..|js| - 1];
      GroupTalliesConserve(init, key);
      RowsOfSnoc(js);
      SumWhereSnoc(RowsOf(init), js[|js| - 1].row, (p: Payable) => IsPaid(p));
      SumWhereSnoc(RowsOf(init), js[|js| - 1].row, (p: Payable) => !IsPaid(p));
    }
  }

  /** One entry per group name, and exactly the names the rows carry. */
  lemma {:induction false} GroupTalliesNames(js: seq<Joined>, key: Joined -> string)
    ensures DistinctNames(GroupTallies(js, key))
    ensures TallyNames(GroupTallies(js, key)) == Keys(js, key)
  {
    if js != [] {
      var init := js[..|js| - 1];
      GroupTalliesNames(init, key);
      assert js == init + [js[|js| - 1]];
      assert Keys(js, key) == Keys(init, key) + {key(js[|js| - 1])};
    }
  }

  /** The rows a grouping files under the name `n`. */
  function KeyIs(key: Joined -> string, n: string): Joined -> bool {
    (j: Joined) => key(j) == n
  }

  function GroupRows(js: seq<Joined>, key: Joined -> string, n: string): seq<Payable> {
    RowsOf(Filter(js, KeyIs(key, n)))
  }

  lemma RowsOfAppend(a: seq<Joined>, b: seq<Joined>)
    ensures RowsOf(a + b) == RowsOf(a) + RowsOf(b)
  {
    assert forall i :: 0 <= i < |a + b| ==> RowsOf(a + b)[i] == (RowsOf(a) + RowsOf(b))[i];
  }

  /** One more row joins the rows filed under `n` exactly when its key is `n`. */
  lemma GroupRowsSnoc(js: seq<Joined>, key: Joined -> string, n: string)
    requires js != []
    ensures var last := js[|js| - 1];
      GroupRows(js, key, n) == GroupRows(js[..|js| - 1], key, n) + (if key(last) == n then [last.row] else [])
  {
    var init, last := js[..|js| - 1], js[|js| - 1];
    assert js == init + [last];
    FilterAppend(init, [last], KeyIs(key, n));
    assert [last][1..] == [];
    RowsOfAppend(Filter(init, KeyIs(key, n)), Filter([last], KeyIs(key, n)));
  }

  /** The fold credits each name with exactly the paid and the unpaid sums
      of the rows filed under it. */
  lemma {:induction false} TalliesForKey(js: seq<Joined>, key: Joined -> string, n: string)
    ensures PaidFor(GroupTallies(js, key), n) == PaidAmount(GroupRows(js, key, n))
    ensures PayableFor(GroupTallies(js, key), n) == OpenAmount(GroupRows(js, key, n))
  {
    if js != [] {
      var init, last := js[..|js| - 1], js[|js| - 1];
      TalliesForKey(init, key, n);
      CreditFor(GroupTallies(init, key), key(last), last.row.amount, IsPaid(last.row), n);
      GroupRowsSnoc(js, key, n);
      if key(last) == n {
        SumWhereSnoc(GroupRows(init, key, n), last.row, (p: Payable) => IsPaid(p));
        SumWhereSnoc(GroupRows(init, key, n), last.row, (p: Payable) => !IsPaid(p));
      } else {
        assert GroupRows(js, key, n) == GroupRows(init, key, n);
      }
    }
  }

  lemma {:induction false} TallyMemberName(ts: seq<Tally>, t: Tally)
    requires t in ts
    ensures t.name in TallyNames(ts)
  {
    if ts[0] != t {
      TallyMemberName(ts[1..], t);
    }
  }

  lemma {:induction false} TallyAbsent(ts: seq<Tally>, n: string)
    requires n !in TallyNames(ts)
    ensures PaidFor(ts, n) == 0 && PayableFor(ts, n) == 0
  {
    if ts != [] {
      TallyAbsent(ts[1..], n);
    }
  }

  /** With distinct names, the amounts held for a name are those of its entry. */
  lemma {:induction false} TallyEntryFor(ts: seq<Tally>, t: Tally)
    requires DistinctNames(ts) && t in ts
    ensures PaidFor(ts, t.name) == t.paid && PayableFor(ts, t.name) == t.payable
  {
    if ts[0] == t {
      TallyAbsent(ts[1..], t.name);
    } else {
      assert t in ts[1..];
      TallyMemberName(ts[1..], t);
      TallyEntryFor(ts[1..], t);
    }
  }

  /** Each entry of a grouping holds exactly the paid and the unpaid sums of
      the rows whose key is its name: every amount lands in its own group. */
  lemma GroupTalliesByKey(js: seq<Joined>, key: Joined -> string, t: Tally)
    requires t in GroupTallies(js, key)
    ensures t.paid == PaidAmount(GroupRows(js, key, t.name))
    ensures t.payable == OpenAmount(GroupRows(js, key, t.name))
  {
    GroupTalliesNames(js, key);
    TallyEntryFor(GroupTallies(js, key), t);
    TalliesForKey(js, key, t.name);
  }

  /** `toArray`: a tally with its `total`. */
  datatype Entry = Entry(name: string, paid: int, payable: int, total: int)

  function ToEntries(ts: seq<Tally>): (es: seq<Entry>)
    ensures |es| == |ts|
    ensures forall i :: 0 <= i < |es| ==> es[i].name == ts[i].name && es[i].total == es[i].paid + es[i].payable
    ensures forall i :: 0 <= i < |es| ==> es[i].paid == ts[i].paid && es[i].payable == ts[i].payable
  {
    if ts == [] then []
    else [Entry(ts[0].name, ts[0].paid, ts[0].payable, ts[0].paid + ts[0].payable)] + ToEntries(ts[1..])
  }

  function EntryTotal(es: seq<Entry>): int {
    if es == [] then 0 else es[0].total + EntryTotal(es[1..])
  }

  lemma {:induction false} EntryTotalOfTallies(ts: seq<Tally>)
    ensures EntryTotal(ToEntries(ts)) == PaidSum(ts) + PayableSum(ts)
  {
    if ts != [] {
      EntryTotalOfTallies(ts[1..]);
    }
  }

  /** An output entry of a grouping: its `paid`, `payable` and `total` are
      the sums over exactly the rows filed under its name. */
  lemma GroupEntryByKey(js: seq<Joined>, key: Joined -> string, e: Entry)
    requires e in ToEntries(GroupTallies(js, key))
    ensures e.paid == PaidAmount(GroupRows(js, key, e.name))
    ensures e.payable == OpenAmount(GroupRows(js, key, e.name))
    ensures e.total == TotalAmount(GroupRows(js, key, e.name))
  {
    var ts := GroupTallies(js, key);
    var es := ToEntries(ts);
    var i :| 0 <= i < |es| && es[i] == e;
    assert ts[i] in ts;
    GroupTalliesByKey(js, key, ts[i]);
    PaidPlusOpenIsTotal(GroupRows(js, key, e.name));
  }

  /** The totals of the grouped entries add up to the sum of all amounts. */
  lemma GroupedEntriesTotal(js: seq<Joined>, key: Joined -> string)
    ensures EntryTotal(ToEntries(GroupTallies(js, key))) == TotalAmount(RowsOf(js))
  {
    EntryTotalOfTallies(GroupTallies(js, key));
    GroupTalliesConserve(js, key);
    PaidPlusOpenIsTotal(RowsOf(js));
  }

  // ------------------------------------------------------ summary buckets

  /** One `{ name, value }` of the summary charts. */
  datatype Bucket = Bucket(name: string, value: int)

  function BucketNames(bs: seq<Bucket>): set<string> {
    if bs == [] then {} else {bs[0].name} + BucketNames(bs[1..])
  }

  predicate DistinctBuckets(bs: seq<Bucket>) {
    bs == [] || (bs[0].name !in BucketNames(bs[1..]) && DistinctBuckets(bs[1..]))
  }

  function ValueSum(bs: seq<Bucket>): int {
    if bs == [] then 0 else bs[0].value + ValueSum(bs[1..])
  }

  /** The value the chart holds for the name `n`: its bucket's, or 0. */
  function ValueFor(bs: seq<Bucket>, n: string): int {
    if bs == [] then 0 else (if bs[0].name == n then bs[0].value else 0) + ValueFor(bs[1..], n)
  }

  /** `acc[name] = (acc[name] || 0) + amount` */
  function AddTo(bs: seq<Bucket>, name: string, amount: int): (r: seq<Bucket>)
    ensures BucketNames(r) == BucketNames(bs) + {name}
    ensures DistinctBuckets(bs) ==> DistinctBuckets(r)
    ensures ValueSum(r) == ValueSum(bs) + amount
  {
    if bs == [] then [Bucket(name, amount)]
    else if bs[0].name == name then
      var r := [Bucket(name, bs[0].value + amount)] + bs[1..];
      assert r[1..] == bs[1..];
      r
    else
      var r := [bs[0]] + AddTo(bs[1..], name, amount);
      assert r[1..] == AddTo(bs[1..], name, amount);
      r
  }

  /** Adding to `name` raises that bucket by the amount and leaves every
      other bucket's value as it was. */
  lemma {:induction false} AddToFor(bs: seq<Bucket>, name: string, amount: int, n: string)
    ensures ValueFor(AddTo(bs, name, amount), n) == ValueFor(bs, n) + (if n == name then amount else 0)
  {
    var r := AddTo(bs, name, amount);
    if bs == [] {
      assert r[1..] == [];
    } else if bs[0].name == name {
      assert r[1..] == bs[1..];
    } else {
      AddToFor(bs[1..], name, amount, n);
      assert r[1..] == AddTo(bs[1..], name, amount);
    }
  }

  function GroupBuckets(js: seq<Joined>, key: Joined -> string): seq<Bucket>
  {
    if js == [] then []
    else
      var last := js[|js| - 1];
      AddTo(GroupBuckets(js[..|js| - 1], key), key(last), last.row.amount)
  }

  /** The chart values add up to the grand total, one bucket per name. */
  lemma {:induction false} GroupBucketsConserve(js: seq<Joined>, key: Joined -> string)
    ensures ValueSum(GroupBuckets(js, key)) == TotalAmount(RowsOf(js))
    ensures DistinctBuckets(GroupBuckets(js, key))
    ensures BucketNames(GroupBuckets(js, key)) == Keys(js, key)
  {
    if js != [] {
      var init := js[..|js| - 1];
      GroupBucketsConserve(init, key);
      RowsOfSnoc(js);
      SumWhereSnoc(RowsOf(init), js[|js| - 1].row, (p: Payable) => true);
      assert js == init + [js[|js| - 1]];
      assert Keys(js, key) == Keys(init, key) + {key(js[|js| - 1])};
    }
  }

  /** The fold gives each name exactly the total of the rows filed under it. */
  lemma {:induction false} BucketsForKey(js: seq<Joined>, key: Joined -> string, n: string)
    ensures ValueFor(GroupBuckets(js, key), n) == TotalAmount(GroupRows(js, key, n))
  {
    if js != [] {
      var init, last := js[..|js| - 1], js[|js| - 1];
      BucketsForKey(init, key, n);
      AddToFor(GroupBuckets(init, key), key(last), last.row.amount, n);
      GroupRowsSnoc(js, key, n);
      if key(last) == n {
        SumWhereSnoc(GroupRows(init, key, n), last.row, (p: Payable) => true);
      } else {
        assert GroupRows(js, key, n) == GroupRows(init, key, n);
      }
    }
  }

  lemma {:induction false} BucketMemberName(bs: seq<Bucket>, b: Bucket)
    requires b in bs
    ensures b.name in BucketNames(bs)
  {
    if bs[0] != b {
      BucketMemberName(bs[1..], b);
    }
  }

  lemma {:induction false} BucketAbsent(bs: seq<Bucket>, n: string)
    requires n !in BucketNames(bs)
    ensures ValueFor(bs, n) == 0
  {
    if bs != [] {
      BucketAbsent(bs[1..], n);
    }
  }

  lemma {:induction false} BucketEntryFor(bs: seq<Bucket>, b: Bucket)
    requires DistinctBuckets(bs) && b in bs
    ensures ValueFor(bs, b.name) == b.value
  {
    if bs[0] == b {
      BucketAbsent(bs[1..], b.name);
    } else {
      assert b in bs[1..];
      BucketMemberName(bs[1..], b);
      BucketEntryFor(bs[1..], b);
    }
  }

  /** Each chart bucket holds exactly the total of the rows whose key is its
      name. */
  lemma GroupBucketsByKey(js: seq<Joined>, key: Joined -> string, b: Bucket)
    requires b in GroupBuckets(js, key)
    ensures b.value == TotalAmount(GroupRows(js, key, b.name))
  {
    GroupBucketsConserve(js, key);
    BucketEntryFor(GroupBuckets(js, key), b);
    BucketsForKey(js, key, b.name);
  }

  // --------------------------------------------------------- group labels

  function UnitLabel(j: Joined): string {
    if j.unit == "" then "Sem Unidade" else j.unit
  }

  function CategoryLabel(j: Joined): string {
    if j.category == "" then "Sem Categoria" else j.category
  }

  function SupplierLabel(j: Joined): string {
    if j.supplier == "" then "Sem Fornecedor" else j.supplier
  }
}
