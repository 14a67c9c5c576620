/** The operational page: the drill-down table that hides the "color"
    column, the trip-count formatter and the KPI cards' reads of the KPI
    object. */
module OperativoPage {
  import opened Common
  import opened MockData
  import opened DrillDown
  import FinancieroPage

  const HiddenKey: string := "color"

  predicate NotHiddenKey(k: string) { k != HiddenKey }
  predicate IsVisible(f: Field) { f.key != HiddenKey }

  /** The fields of a row that the drill-down shows: all but "color", in order. */
  function VisibleFields(row: Record): (fields: Record)
    ensures forall i :: 0 <= i < |fields| ==> fields[i].key != HiddenKey
    ensures IsSubsequence(fields, row)
  {
    FilterIsSubsequence(row, IsVisible);
    Filter(row, IsVisible)
  }

  /** Every field but "color" is kept, as often as it occurs. */
  lemma VisibleFieldsExact(row: Record, f: Field)
    ensures multiset(VisibleFields(row))[f] == if f.key != HiddenKey then multiset(row)[f] else 0
  {
    FilterMultiset(row, IsVisible, f);
  }

  /** The header keys: the first row's keys except "color"; none without rows. */
  function HeaderKeys(rows: seq<Record>): (keys: seq<string>)
    ensures rows == [] ==> keys == []
    ensures HiddenKey !in keys
    ensures rows != [] ==> IsSubsequence(keys, Keys(rows[0]))
  {
    if rows == [] then []
    else
      FilterIsSubsequence(Keys(rows[0]), NotHiddenKey);
      Filter(Keys(rows[0]), NotHiddenKey)
  }

  function OperativoHeaders(rows: seq<Record>): (headers: seq<string>)
    ensures |headers| == |HeaderKeys(rows)|
    ensures forall i :: 0 <= i < |headers| ==> headers[i] == Capitalize(HeaderKeys(rows)[i])
  {
    CapitalizeAll(HeaderKeys(rows))
  }

  /** A row's cells: the value of every visible field, shown as is (numbers
      included). */
  function OperativoRow(row: Record): (cells: seq<DrillCell>)
    ensures |cells| == |VisibleFields(row)|
    ensures forall i :: 0 <= i < |cells| ==> cells[i] == Raw(VisibleFields(row)[i].value)
  {
    RawCells(VisibleFields(row))
  }

  function RawCells(fields: Record): (cells: seq<DrillCell>)
    ensures |cells| == |fields|
    ensures forall i :: 0 <= i < |cells| ==> cells[i] == Raw(fields[i].value)
  {
    if fields == [] then [] else [Raw(fields[0].value)] + RawCells(fields[1..])
  }

  /** Hiding a key commutes with taking the keys. */
  lemma {:induction false} KeysOfVisibleFields(row: Record)
    ensures Keys(VisibleFields(row)) == Filter(Keys(row), NotHiddenKey)
  {
    if row != [] {
      KeysOfVisibleFields(row[1..]);
      assert Keys(row)[1..] == Keys(row[1..]);
      if row[0].key != HiddenKey {
        assert VisibleFields(row) == [row[0]] + VisibleFields(row[1..]);
      }
    }
  }

  /** A row with the same keys as the first row has exactly one cell under
      each header, the cell of the key that header capitalises. */
  lemma RowAlignsWithHeaders(rows: seq<Record>, r: int)
    requires 0 <= r < |rows| && Keys(rows[r]) == Keys(rows[0])
    ensures |OperativoRow(rows[r])| == |OperativoHeaders(rows)|
    ensures forall i :: 0 <= i < |OperativoHeaders(rows)| ==>
              OperativoHeaders(rows)[i] == Capitalize(VisibleFields(rows[r])[i].key)
  {
    KeysOfVisibleFields(rows[r]);
    var vis := VisibleFields(rows[r]);
    assert |Keys(vis)| == |HeaderKeys(rows)|;
    forall i | 0 <= i < |HeaderKeys(rows)| ensures HeaderKeys(rows)[i] == vis[i].key {
      assert Keys(vis)[i] == vis[i].key;
    }
  }

  /** The trips drill-down shows name and count, never the colour. */
  lemma ViajesDrillDown(k: int)
    requires 0 <= k < |ViajesPorCliente|
    ensures OperativoHeaders(ViajesPorCliente) == ["Name", "Value"]
    ensures OperativoRow(ViajesPorCliente[k]) == [Raw(ViajesPorCliente[k][0].value), Raw(ViajesPorCliente[k][1].value)]
  {
    var row := ViajesPorCliente[k];
    assert row[0].key == "name" && row[1].key == "value" && row[2].key == "color";
    assert Keys(row) == ["name", "value", "color"];
    var row0 := ViajesPorCliente[0];
    assert Keys(row0) == ["name", "value", "color"];
    assert Filter(["color"], NotHiddenKey) == [];
    assert Filter(["value", "color"], NotHiddenKey) == ["value"];
    assert Filter(Keys(row0), NotHiddenKey) == ["name", "value"];
    assert Filter([row[2]], IsVisible) == [];
    assert Filter([row[1], row[2]], IsVisible) == [row[1]];
    assert row == [row[0], row[1], row[2]];
    assert VisibleFields(row) == [row[0], row[1]];
    assert Capitalize("name") == "Name" && Capitalize("value") == "Value";
  }

  /** `formatViajes`: the count's plain decimal string, with no currency sign. */
  function FormatViajes(count: int): (shown: string)
    ensures |shown| >= 1
    ensures count >= 0 ==> forall i :: 0 <= i < |shown| ==> '0' <= shown[i] <= '9'
    ensures forall i :: 0 <= i < |shown| ==> shown[i] != '$'
  {
    IntToString(count)
  }

  /** A trip count never reads like a peso amount. */
  lemma ViajesNeverLookLikePesos(count: int, value: real, localeString: real -> string)
    ensures FormatViajes(count) != FinancieroPage.FormatPesos(value, localeString)
  {
    var p := FinancieroPage.FormatPesos(value, localeString);
    assert p[0] == '$';
  }

  /** The "Incidencias" card reads `kpisOperativos.incidencias`, a field the
      sample KPI object does not have, so that card gets `undefined`; the
      fields the other cards read are present. */
  lemma IncidenciasCardIsUndefined()
    ensures Lookup(KpisOperativos, "incidencias") == Undefined
    ensures Lookup(KpisOperativos, "kilometros") == Num(45680.0)
    ensures Lookup(KpisOperativos, "combustible") == Num(8950.0)
    ensures Lookup(KpisOperativos, "pedidosEntregados") == Num(340.0)
  {
    var k := KpisOperativos;
    // Keys of equal length differ in their first letters.
    assert k[0].key[0] != "incidencias"[0] && k[2].key[0] != "incidencias"[0];
    assert k[0].key[0] != "combustible"[0];
    forall i | 0 <= i < |k| ensures k[i].key != "incidencias" {
      assert |k[i].key| != 11 || k[i].key[0] != 'i';
    }
  }
}
