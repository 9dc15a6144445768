/** The Brazilian federative units (UF) and their two-digit IBGE state codes.
    The profile panel and the store form hold `ufToStateCode` as an object
    literal and derive `stateCodeToUf` by swapping its entries; the cart page
    holds its own literal from code to UF. */
module StateCodes {
  import opened Js

  /** The entries of `ufToStateCode`, in the order the source lists them. */
  const UfCodeEntries: seq<(string, string)> := [
    ("RO", "11"), ("AC", "12"), ("AM", "13"), ("RR", "14"), ("PA", "15"),
    ("AP", "16"), ("TO", "17"), ("MA", "21"), ("PI", "22"), ("CE", "23"),
    ("RN", "24"), ("PB", "25"), ("PE", "26"), ("AL", "27"), ("SE", "28"),
    ("BA", "29"), ("MG", "31"), ("ES", "32"), ("RJ", "33"), ("SP", "35"),
    ("PR", "41"), ("SC", "42"), ("RS", "43"), ("MS", "50"), ("MT", "51"),
    ("GO", "52"), ("DF", "53")
  ]

  /** The entries of the cart page's `stateCodeToUF` literal, in source order
      (its numeric keys are property names, so strings). */
  const CartCodeEntries: seq<(string, string)> := [
    ("11", "RO"), ("12", "AC"), ("13", "AM"), ("14", "RR"), ("15", "PA"),
    ("16", "AP"), ("17", "TO"), ("21", "MA"), ("22", "PI"), ("23", "CE"),
    ("24", "RN"), ("25", "PB"), ("26", "PE"), ("27", "AL"), ("28", "SE"),
    ("29", "BA"), ("31", "MG"), ("32", "ES"), ("33", "RJ"), ("35", "SP"),
    ("41", "PR"), ("42", "SC"), ("43", "RS"), ("50", "MS"), ("51", "MT"),
    ("52", "GO"), ("53", "DF")
  ]

  /** `Object.fromEntries(entries)`: a later entry overrides an earlier one. */
  function FromEntries(entries: seq<(string, string)>): (m: map<string, string>)
    ensures m.Keys == set i | 0 <= i < |entries| :: entries[i].0
  {
    if entries == [] then map[]
    else
      var last := entries[|entries| - 1];
      var m := FromEntries(entries[..|entries| - 1]);
      assert forall i :: 0 <= i < |entries| - 1 ==> entries[..|entries| - 1][i] == entries[i];
      m[last.0 := last.1]
  }

  /** Each entry with key and value exchanged (`([uf, code]) => [code, uf]`). */
  function Swapped(entries: seq<(string, string)>): (r: seq<(string, string)>)
    ensures |r| == |entries|
    ensures forall i :: 0 <= i < |r| ==> r[i] == (entries[i].1, entries[i].0)
  {
    seq(|entries|, i requires 0 <= i < |entries| => (entries[i].1, entries[i].0))
  }

  /** No two entries share a key. */
  ghost predicate DistinctKeys(entries: seq<(string, string)>) {
    forall i, j :: 0 <= i < j < |entries| ==> entries[i].0 != entries[j].0
  }

  function UfToStateCode(): map<string, string> {
    FromEntries(UfCodeEntries)
  }

  function StateCodeToUf(): map<string, string> {
    FromEntries(Swapped(UfCodeEntries))
  }

  /** With distinct keys, the object built from the entries maps every key to
      its own entry's value. */
  lemma {:induction false} FromEntriesLookup(entries: seq<(string, string)>, k: nat)
    requires DistinctKeys(entries)
    requires k < |entries|
    ensures entries[k].0 in FromEntries(entries)
    ensures FromEntries(entries)[entries[k].0] == entries[k].1
  {
    var n := |entries|;
    if k < n - 1 {
      var init := entries[..n - 1];
      assert DistinctKeys(init) by {
        forall i, j | 0 <= i < j < |init| ensures init[i].0 != init[j].0 {
          assert init[i] == entries[i] && init[j] == entries[j];
        }
      }
      FromEntriesLookup(init, k);
      assert init[k] == entries[k];
    }
  }

  lemma UfDistinctFrom(k: nat)
    requires k < |UfCodeEntries|
    ensures forall j :: k < j < |UfCodeEntries| ==> UfCodeEntries[k].0 != UfCodeEntries[j].0
  {
  }

  lemma CodeDistinctFrom(k: nat)
    requires k < |UfCodeEntries|
    ensures forall j :: k < j < |UfCodeEntries| ==> UfCodeEntries[k].1 != UfCodeEntries[j].1
  {
  }

  /** No UF and no code occurs twice in `ufToStateCode`. */
  lemma UfCodesDistinct()
    ensures DistinctKeys(UfCodeEntries)
    ensures DistinctKeys(Swapped(UfCodeEntries))
  {
    var e := UfCodeEntries;
    forall i | 0 <= i < |e| ensures forall j :: i < j < |e| ==> e[i].0 != e[j].0 {
      UfDistinctFrom(i);
    }
    var sw := Swapped(e);
    forall i | 0 <= i < |sw| ensures forall j :: i < j < |sw| ==> sw[i].0 != sw[j].0 {
      CodeDistinctFrom(i);
    }
  }

  /** With distinct keys the object has one property per entry. */
  lemma {:induction false} FromEntriesSize(entries: seq<(string, string)>)
    requires DistinctKeys(entries)
    ensures |FromEntries(entries)| == |entries|
  {
    var n := |entries|;
    if n > 0 {
      var init := entries[..n - 1];
      assert DistinctKeys(init) by {
        forall i, j | 0 <= i < j < |init| ensures init[i].0 != init[j].0 {
          assert init[i] == entries[i] && init[j] == entries[j];
        }
      }
      FromEntriesSize(init);
      assert entries[n - 1].0 !in FromEntries(init) by {
        forall i | 0 <= i < |init| ensures init[i].0 != entries[n - 1].0 {
          assert init[i] == entries[i];
        }
      }
    }
  }

  /** `ufToStateCode` has 27 entries and so has its inverse. */
  lemma TablesHave27Entries()
    ensures |UfToStateCode()| == 27 && |StateCodeToUf()| == 27
  {
    UfCodesDistinct();
    FromEntriesSize(UfCodeEntries);
    FromEntriesSize(Swapped(UfCodeEntries));
  }

  /** `stateCodeToUf[ufToStateCode[uf]] == uf` for every UF. */
  lemma CodeOfUfRoundTrip(uf: string)
    requires uf in UfToStateCode()
    ensures UfToStateCode()[uf] in StateCodeToUf()
    ensures StateCodeToUf()[UfToStateCode()[uf]] == uf
  {
    var e := UfCodeEntries;
    UfCodesDistinct();
    var i :| 0 <= i < |e| && e[i].0 == uf;
    FromEntriesLookup(e, i);
    FromEntriesLookup(Swapped(e), i);
  }

  /** `ufToStateCode[stateCodeToUf[code]] == code` for every code. */
  lemma UfOfCodeRoundTrip(code: string)
    requires code in StateCodeToUf()
    ensures StateCodeToUf()[code] in UfToStateCode()
    ensures UfToStateCode()[StateCodeToUf()[code]] == code
  {
    var e := UfCodeEntries;
    var sw := Swapped(e);
    UfCodesDistinct();
    var i :| 0 <= i < |sw| && sw[i].0 == code;
    FromEntriesLookup(e, i);
    FromEntriesLookup(sw, i);
  }

  /** The entry of `ufToStateCode` that a UF comes from. */
  lemma UfIndex(uf: string) returns (i: nat)
    requires uf in UfToStateCode()
    ensures i < |UfCodeEntries| && UfCodeEntries[i].0 == uf
  {
    i :| 0 <= i < |UfCodeEntries| && UfCodeEntries[i].0 == uf;
  }

  lemma EntryShape(i: nat)
    requires i < |UfCodeEntries|
    ensures |UfCodeEntries[i].0| == 2 && |UfCodeEntries[i].1| == 2
  {
  }

  /** Every UF and every code of the table has two characters. */
  lemma UfAndCodeShape(uf: string)
    requires uf in UfToStateCode()
    ensures |uf| == 2 && |UfToStateCode()[uf]| == 2
  {
    var i := UfIndex(uf);
    UfCodesDistinct();
    FromEntriesLookup(UfCodeEntries, i);
    EntryShape(i);
  }

  function CartCodeToUf(): map<string, string> {
    FromEntries(CartCodeEntries)
  }

  lemma CartEntryAgrees(k: nat)
    requires k < |UfCodeEntries|
    ensures |CartCodeEntries| == |UfCodeEntries|
    ensures CartCodeEntries[k] == (UfCodeEntries[k].1, UfCodeEntries[k].0)
  {
  }

  /** The cart page's code-to-UF literal is, entry for entry, the panel's
      derived inverse; so the two tables are the same map. */
  lemma CartTableIsPanelInverse()
    ensures CartCodeEntries == Swapped(UfCodeEntries)
    ensures CartCodeToUf() == StateCodeToUf()
  {
    var sw := Swapped(UfCodeEntries);
    forall k | 0 <= k < |sw| ensures CartCodeEntries[k] == sw[k] {
      CartEntryAgrees(k);
    }
    CartEntryAgrees(0);
  }
}
