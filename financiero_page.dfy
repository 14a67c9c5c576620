/** The financial page: the total balance over the account summary, the
    peso formatter and the drill-down table's headers and cells. */
module FinancieroPage {
  import opened Common
  import opened MockData
  import opened DrillDown

  /** The keys whose numeric values the drill-down shows as pesos. */
  const CurrencyKeys: set<string> := {"ingresos", "gastos", "saldo", "value"}

  /** `cuentasResumen.reduce((total, cuenta) => total + cuenta.saldo, 0)`,
      folding from the left. */
  function SaldoTotal(cuentas: seq<CuentaResumen>): (total: int)
    ensures cuentas == [] ==> total == 0
    ensures (forall i :: 0 <= i < |cuentas| ==> cuentas[i].saldo >= 0) ==> total >= 0
  {
    if cuentas == [] then 0 else SaldoTotal(cuentas[..|cuentas| - 1]) + cuentas[|cuentas| - 1].saldo
  }

  /** The total of a concatenation is the sum of the totals. */
  lemma {:induction false} SaldoTotalAppend(a: seq<CuentaResumen>, b: seq<CuentaResumen>)
    ensures SaldoTotal(a + b) == SaldoTotal(a) + SaldoTotal(b)
    decreases |b|
  {
    if b == [] {
      assert a + b == a;
    } else {
      var b' := b[..|b| - 1];
      assert (a + b)[..|a + b| - 1] == a + b';
      SaldoTotalAppend(a, b');
    }
  }

  /** With no negative balance, the total bounds every account's balance. */
  lemma {:induction false} SaldoTotalBoundsEach(cuentas: seq<CuentaResumen>, k: int)
    requires forall i :: 0 <= i < |cuentas| ==> cuentas[i].saldo >= 0
    requires 0 <= k < |cuentas|
    ensures 0 <= cuentas[k].saldo <= SaldoTotal(cuentas)
  {
    var init := cuentas[..|cuentas| - 1];
    if k < |cuentas| - 1 {
      assert init[k] == cuentas[k];
      SaldoTotalBoundsEach(init, k);
    }
  }

  /** The sample accounts hold 285000 in total. */
  lemma SampleSaldoTotal()
    ensures SaldoTotal(CuentasResumen) == 285000
  {
    var c := CuentasResumen;
    assert c[..1][..0] == [];
    assert SaldoTotal(c[..1]) == 170000;
    assert c[..2][..1] == c[..1];
    assert SaldoTotal(c[..2]) == 245000;
    assert c[..2] == c[..|c| - 1];
  }

  /** `formatPesos`: a dollar sign before the locale rendering `localeString`
      of the number. */
  function FormatPesos(value: real, localeString: real -> string): (shown: string)
    ensures |shown| == |localeString(value)| + 1
    ensures shown[0] == '$' && shown[1..] == localeString(value)
  {
    "$" + localeString(value)
  }

  /** A drill-down value is shown as pesos iff it is a number under one of
      the currency keys. */
  function IsCurrencyCell(key: string, value: Value): (pesos: bool)
    ensures pesos <==> value.Num? && (key == "ingresos" || key == "gastos" || key == "saldo" || key == "value")
  {
    value.Num? && key in CurrencyKeys
  }

  function FinancieroCell(field: Field, localeString: real -> string): (c: DrillCell)
    ensures c.Formatted? <==> IsCurrencyCell(field.key, field.value)
    ensures c.Formatted? ==> c.text == FormatPesos(field.value.n, localeString)
    ensures c.Raw? ==> c.value == field.value
  {
    if IsCurrencyCell(field.key, field.value) then Formatted(FormatPesos(field.value.n, localeString))
    else Raw(field.value)
  }

  /** The headers: the first row's keys, capitalised; none without rows. */
  function FinancieroHeaders(rows: seq<Record>): (headers: seq<string>)
    ensures rows == [] ==> headers == []
    ensures rows != [] ==> |headers| == |rows[0]|
                           && forall i :: 0 <= i < |rows[0]| ==> headers[i] == Capitalize(rows[0][i].key)
  {
    if rows == [] then [] else CapitalizeAll(Keys(rows[0]))
  }

  /** A row's cells, one per own property of that row, in key order. */
  function FinancieroRow(row: Record, localeString: real -> string): (cells: seq<DrillCell>)
    ensures |cells| == |row|
    ensures forall i :: 0 <= i < |row| ==> cells[i] == FinancieroCell(row[i], localeString)
  {
    if row == [] then [] else [FinancieroCell(row[0], localeString)] + FinancieroRow(row[1..], localeString)
  }

  /** Headers come from the first row only: a row with the same keys lines
      up with them, cell by cell. */
  lemma RowAlignsWithHeaders(rows: seq<Record>, r: int, localeString: real -> string)
    requires 0 <= r < |rows| && Keys(rows[r]) == Keys(rows[0])
    ensures |FinancieroRow(rows[r], localeString)| == |FinancieroHeaders(rows)|
    ensures forall i :: 0 <= i < |rows[r]| ==> FinancieroHeaders(rows)[i] == Capitalize(rows[r][i].key)
  {
    assert |Keys(rows[r])| == |Keys(rows[0])|;
    forall i | 0 <= i < |rows[r]| ensures rows[0][i].key == rows[r][i].key {
      assert Keys(rows[r])[i] == Keys(rows[0])[i];
    }
  }

  /** The expenses drill-down shows each category's amount as pesos and its
      colour code as is (this page keeps the "color" column). */
  lemma GastosRowsShowPesos(k: int, localeString: real -> string)
    requires 0 <= k < |GastosPorCategoria|
    ensures FinancieroHeaders(GastosPorCategoria) == ["Name", "Value", "Color"]
    ensures var cells := FinancieroRow(GastosPorCategoria[k], localeString);
            && cells[0] == Raw(GastosPorCategoria[k][0].value)
            && cells[1] == Formatted(FormatPesos(GastosPorCategoria[k][1].value.n, localeString))
            && cells[2] == Raw(GastosPorCategoria[k][2].value)
  {
    var row := GastosPorCategoria[k];
    assert row[0].key == "name" && row[1] == Field("value", row[1].value) && row[1].value.Num? && row[2].key == "color";
    assert Capitalize("name") == "Name" && Capitalize("value") == "Value" && Capitalize("color") == "Color";
  }
}
