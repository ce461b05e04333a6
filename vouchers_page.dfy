/** The vouchers page: load with defaults, create, delete, and the CSV export. */
module VouchersPage {
  import opened Js
  import opened Text
  import opened Lists
  import opened ListSearch
  import opened Wrappers

  /** The page state: the shown vouchers, the loading flag, the popup and its two inputs. */
  datatype VouchersState = VouchersState(
    vouchers: seq<Record>, loading: bool, showPopup: bool, selectedValue: int, quantity: int)

  const Initial: VouchersState := VouchersState([], true, false, 50, 1)

  /** The value each listed field takes when the stored one is falsy. */
  const Defaults: map<string, Value> := map[
    "code" := Str(""),
    "createdAt" := Obj(map["seconds" := Num(0)]),
    "isRedeemed" := Bool(false),
    "redemptionDate" := Null,
    "value" := Num(0)]

  /** The load-time `map`: `id` is copied and every other listed field falls back to its default. */
  function Normalise(v: Record): (r: Record)
    ensures r.Keys == Defaults.Keys + {"id"}
    ensures r["id"] == Field(v, "id")
    ensures forall k :: k in Defaults ==> r[k] == (if Truthy(Field(v, k)) then v[k] else Defaults[k])
    // Every listed field ends up either truthy or at its default.
    ensures forall k :: k in Defaults ==> Truthy(r[k]) || r[k] == Defaults[k]
  {
    map["id" := Field(v, "id")] + map k | k in Defaults :: Or(Field(v, k), Defaults[k])
  }

  /** Normalising twice is normalising once. */
  lemma NormaliseIdempotent(v: Record)
    ensures Normalise(Normalise(v)) == Normalise(v)
  {
    var once := Normalise(v);
    var twice := Normalise(once);
    forall k | k in Defaults ensures twice[k] == once[k] {
      assert !Truthy(Defaults[k]) || Defaults[k] == Obj(map["seconds" := Num(0)]);
    }
  }

  /** `loadVouchers()`: the normalised vouchers, then `loading` off. */
  function Load(s: VouchersState, data: seq<Record>): (r: VouchersState)
    ensures |r.vouchers| == |data| && !r.loading
    ensures forall i :: 0 <= i < |data| ==> r.vouchers[i] == Normalise(data[i])
    ensures r.showPopup == s.showPopup
    // The popup's inputs are untouched.
    ensures r == s.(vouchers := r.vouchers, loading := false)
  {
    s.(vouchers := seq(|data|, i requires 0 <= i < |data| => Normalise(data[i])), loading := false)
  }

  /** `handleCreateVoucher()`: the list is replaced by a fresh read only on success; the popup closes either way. */
  function Create(s: VouchersState, created: bool, refreshed: seq<Record>): (r: VouchersState)
    ensures !r.showPopup
    ensures r.vouchers == if created then refreshed else s.vouchers
    ensures r.loading == s.loading && r.selectedValue == s.selectedValue && r.quantity == s.quantity
  {
    if created then s.(vouchers := refreshed, showPopup := false) else s.(showPopup := false)
  }

  /** `handleDeleteVoucher(id)` */
  function Delete(s: VouchersState, id: string, confirmed: bool, deleted: bool): (r: VouchersState)
    ensures !(confirmed && deleted) ==> r == s
    ensures confirmed && deleted ==>
      && IsSubsequence(r.vouchers, s.vouchers)
      && (forall x :: x in r.vouchers <==> x in s.vouchers && Field(x, "id") != Str(id))
      && (forall x :: Field(x, "id") != Str(id) ==> multiset(r.vouchers)[x] == multiset(s.vouchers)[x])
      && IsWithoutId(r.vouchers, s.vouchers, id)
    // Only the list changes.
    ensures r == s.(vouchers := r.vouchers)
  {
    WithoutIdSpec(s.vouchers, id);
    if confirmed && deleted then s.(vouchers := WithoutId(s.vouchers, id)) else s
  }

  // ---------------------------------------------------------------------------
  // CSV export

  const HeaderLine: string := "data:text/csv;charset=utf-8,Code,Value,Status"

  /** The status column: `Redeemed` for a truthy `isRedeemed`, else `Active`. */
  function StatusText(v: Record): string
  {
    if Truthy(Field(v, "isRedeemed")) then "Redeemed" else "Active"
  }

  /** One row, without its newline: `${code},${value} LYD,${status}`. */
  function RowLine(v: Record): string
  {
    ToStr(Field(v, "code")) + "," + ToStr(Field(v, "value")) + " LYD," + StatusText(v)
  }

  function Rows(vs: seq<Record>): string
  {
    if vs == [] then "" else RowLine(vs[0]) + "\n" + Rows(vs[1..])
  }

  /** The whole export: header, then one newline-terminated row per voucher in list order. */
  function CsvText(vs: seq<Record>): string
  {
    HeaderLine + "\n" + Rows(vs)
  }

  lemma {:induction false} RowsAppend(vs: seq<Record>, v: Record)
    ensures Rows(vs + [v]) == Rows(vs) + RowLine(v) + "\n"
  {
    if vs == [] {
      assert [v][1..] == [];
    } else {
      assert (vs + [v])[1..] == vs[1..] + [v];
      RowsAppend(vs[1..], v);
    }
  }

  /** `handleDownloadCSV()`: no export for an empty list; otherwise the text built row by row. */
  method DownloadCsv(vs: seq<Record>) returns (csv: Option<string>)
    ensures csv == if vs == [] then None else Some(CsvText(vs))
  {
    if |vs| == 0 {
      return None;
    }
    var rows := "";
    var i := 0;
    while i < |vs|
      invariant 0 <= i <= |vs|
      invariant rows == Rows(vs[..i])
    {
      RowsAppend(vs[..i], vs[i]);
      assert vs[..i + 1] == vs[..i] + [vs[i]];
      rows := rows + RowLine(vs[i]) + "\n";
      i := i + 1;
    }
    assert vs[..i] == vs;
    return Some(HeaderLine + "\n" + rows);
  }

  /** A voucher whose code and value print without a newline or a comma. */
  predicate PlainFields(v: Record)
  {
    var code := ToStr(Field(v, "code"));
    var value := ToStr(Field(v, "value"));
    '\n' !in code && '\n' !in value && ',' !in code && ',' !in value
  }

  /** Split on newlines, the export is the header line, one line per voucher, and a final empty piece. */
  lemma {:induction false} CsvLines(vs: seq<Record>)
    requires forall i :: 0 <= i < |vs| ==> PlainFields(vs[i])
    ensures Split(CsvText(vs), '\n') == [HeaderLine] + seq(|vs|, i requires 0 <= i < |vs| => RowLine(vs[i])) + [""]
  {
    assert '\n' !in HeaderLine;
    assert CsvText(vs) == HeaderLine + ['\n'] + Rows(vs);
    SplitAfterPiece(HeaderLine, '\n', Rows(vs));
    RowsLines(vs);
  }

  lemma {:induction false} RowsLines(vs: seq<Record>)
    requires forall i :: 0 <= i < |vs| ==> PlainFields(vs[i])
    ensures Split(Rows(vs), '\n') == seq(|vs|, i requires 0 <= i < |vs| => RowLine(vs[i])) + [""]
  {
    if vs != [] {
      RowsLines(vs[1..]);
      assert PlainFields(vs[0]);
      SplitAfterPiece(RowLine(vs[0]), '\n', Rows(vs[1..]));
    }
  }

  /** Split on commas, a row gives back the code, the value with its unit, and the status. */
  lemma RowColumns(v: Record)
    requires PlainFields(v)
    ensures Split(RowLine(v), ',') == [ToStr(Field(v, "code")), ToStr(Field(v, "value")) + " LYD", StatusText(v)]
    ensures StatusText(v) == "Redeemed" <==> Truthy(Field(v, "isRedeemed"))
  {
    var code := ToStr(Field(v, "code"));
    var value := ToStr(Field(v, "value")) + " LYD";
    assert RowLine(v) == code + [','] + (value + [','] + StatusText(v));
    SplitAfterPiece(code, ',', value + [','] + StatusText(v));
    SplitAfterPiece(value, ',', StatusText(v));
    SplitWholePiece(StatusText(v), ',');
  }
}
