/** guessColumns: resolving the roles a question mentions (customer,
    product, category, date, value, quantity, processes) to columns, from a
    fixed synonym table scanned in order, first match winning, with a
    fallback that takes a column whose name the question spells out. */
module Synonyms {
  import opened Js
  import opened Question

  /** The keys of the result record: cliente, produto, categoria, data,
      valor, quantidade, processos. */
  datatype Role = Cliente | Produto | Categoria | Data | Valor | Quantidade | Processos

  /** The keys in the table's declaration order, which is the loop's order. */
  const Roles: seq<Role> := [Cliente, Produto, Categoria, Data, Valor, Quantidade, Processos]

  /** The synonym list of each key. */
  function SynonymsOf(r: Role): seq<string>
  {
    match r
    case Cliente => ["cliente", "clientes", "empresa", "empresas", "consumidor", "consumidores",
                     "company", "customer", "client"]
    case Produto => ["produto", "produtos", "product", "item", "sku", "artigo"]
    case Categoria => ["categoria", "segmento", "tipo", "classe", "grupo"]
    case Data => ["data", "date", "dt", "dia", "mes", "m\U{EA}s", "ano", "year"]
    case Valor => ["valor", "valor_total", "price", "preco", "pre\U{E7}o", "amount", "total",
                   "receita", "faturamento"]
    case Quantidade => ["quantidade", "qtd", "volume", "count", "numero", "n\U{FA}mero"]
    case Processos => ["processo", "processos", "ordens", "orders", "tickets"]
  }

  /** The index of the first column whose normalised name contains s. */
  function ColumnIndex(columns: seq<string>, s: string): (r: Option<nat>)
    ensures r.Some? ==> r.value < |columns| && Contains(Normalize(columns[r.value]), s)
    ensures r.Some? ==> forall j :: 0 <= j < r.value ==> !Contains(Normalize(columns[j]), s)
    ensures r.None? ==> forall j :: 0 <= j < |columns| ==> !Contains(Normalize(columns[j]), s)
  {
    if columns == [] then None
    else if Contains(Normalize(columns[0]), s) then Some(0)
    else match ColumnIndex(columns[1..], s)
      case Some(i) => Some(i + 1)
      case None => None
  }

  /** `score(s)`: the first column whose normalised name contains s. */
  function Score(columns: seq<string>, s: string): (r: Option<string>)
    ensures r.Some? <==> ColumnIndex(columns, s).Some?
    ensures r.Some? ==> r.value == columns[ColumnIndex(columns, s).value]
  {
    match ColumnIndex(columns, s)
    case Some(i) => Some(columns[i])
    case None => None
  }

  /** Synonym s occurs in the question and `score(s)` finds a column whose
      name is truthy (non-empty). */
  predicate Hit(q: string, columns: seq<string>, s: string)
  {
    Contains(q, s) && Score(columns, s).Some? && Score(columns, s).value != ""
  }

  /** The index of the first synonym that is a hit. */
  function HitIndex(q: string, columns: seq<string>, syns: seq<string>): (r: Option<nat>)
    ensures r.Some? ==> r.value < |syns| && Hit(q, columns, syns[r.value])
    ensures r.Some? ==> forall j :: 0 <= j < r.value ==> !Hit(q, columns, syns[j])
    ensures r.None? ==> forall j :: 0 <= j < |syns| ==> !Hit(q, columns, syns[j])
  {
    if syns == [] then None
    else if Hit(q, columns, syns[0]) then Some(0)
    else match HitIndex(q, columns, syns[1..])
      case Some(i) => Some(i + 1)
      case None => None
  }

  /** A column found through a non-empty text has a non-empty name, so the
      source's `if (col)` never skips a column that was found. */
  lemma NamedColumnNotEmpty(columns: seq<string>, s: string)
    requires s != "" && ColumnIndex(columns, s).Some?
    ensures columns[ColumnIndex(columns, s).value] != ""
  {
    var c := columns[ColumnIndex(columns, s).value];
    var p :| 0 <= p <= |Normalize(c)| && AtPos(Normalize(c), p, s);
  }

  /** The inner loop of guessColumns for one key: the first synonym the
      question holds that some column contains gives the column; a synonym
      the question holds but no column contains is passed over. */
  function Pick(q: string, columns: seq<string>, syns: seq<string>): (r: Option<string>)
    ensures r.Some? <==> HitIndex(q, columns, syns).Some?
    ensures r.Some? ==> r == Score(columns, syns[HitIndex(q, columns, syns).value])
  {
    if syns == [] then None
    else
      var col := Score(columns, syns[0]);
      if Contains(q, syns[0]) && col.Some? && col.value != "" then col
      else Pick(q, columns, syns[1..])
  }

  /** The pick for one key of a synonym table. */
  function PickFor(q: string, columns: seq<string>, table: Role -> seq<string>, r: Role): Option<string>
  {
    Pick(q, columns, table(r))
  }

  /** No synonym of the table is empty. */
  lemma SynonymsNotEmpty(r: Role)
    ensures forall j :: 0 <= j < |SynonymsOf(r)| ==> SynonymsOf(r)[j] != ""
  {
  }

  /** No synonym is empty, so a hit is just a synonym that occurs in the
      question and in some column's normalised name. */
  lemma HitIffOccurs(q: string, columns: seq<string>, r: Role, j: nat)
    requires j < |SynonymsOf(r)|
    ensures Hit(q, columns, SynonymsOf(r)[j]) <==>
      Contains(q, SynonymsOf(r)[j]) && ColumnIndex(columns, SynonymsOf(r)[j]).Some?
  {
    SynonymsNotEmpty(r);
    if ColumnIndex(columns, SynonymsOf(r)[j]).Some? {
      NamedColumnNotEmpty(columns, SynonymsOf(r)[j]);
    }
  }

  /** The result record after the outer loop has handled the first k keys
      of a synonym table. */
  function PicksUpTo(q: string, columns: seq<string>, table: Role -> seq<string>, k: nat): (m: map<Role, string>)
    requires k <= |Roles|
  {
    if k == 0 then map[]
    else
      var m := PicksUpTo(q, columns, table, k - 1);
      match PickFor(q, columns, table, Roles[k - 1])
      case Some(c) => m[Roles[k - 1] := c]
      case None => m
  }

  /** `/[a-z]/.test(s)` */
  predicate HasLetter(s: string)
  {
    exists i | 0 <= i < |s| :: 'a' <= s[i] <= 'z'
  }

  /** The fallback accepts a column whose normalised name holds a letter and
      occurs in the question. */
  predicate Spelled(q: string, column: string)
  {
    HasLetter(Normalize(column)) && Contains(q, Normalize(column))
  }

  /** The index of the first column the fallback accepts. */
  function FuzzyIndex(q: string, columns: seq<string>): (r: Option<nat>)
    ensures r.Some? ==> r.value < |columns| && Spelled(q, columns[r.value])
    ensures r.Some? ==> forall j :: 0 <= j < r.value ==> !Spelled(q, columns[j])
    ensures r.None? ==> forall j :: 0 <= j < |columns| ==> !Spelled(q, columns[j])
  {
    if columns == [] then None
    else if Spelled(q, columns[0]) then Some(0)
    else match FuzzyIndex(q, columns[1..])
      case Some(i) => Some(i + 1)
      case None => None
  }

  /** What guessColumns returns, as a function of its inputs. */
  function GuessSpec(question: string, columns: seq<string>): map<Role, string>
  {
    var q := Normalize(question);
    var m := PicksUpTo(q, columns, SynonymsOf, |Roles|);
    if Cliente !in m || m[Cliente] == "" then
      match FuzzyIndex(q, columns)
      case Some(i) => m[Cliente := columns[i]]
      case None => m
    else m
  }

  /** The inner loop of guessColumns: the synonyms of one key in order,
      stopping at the first that the question holds and that names a column. */
  method FirstHit(q: string, columns: seq<string>, syns: seq<string>) returns (col: Option<string>)
    ensures col == Pick(q, columns, syns)
  {
    var i := 0;
    while i < |syns|
      invariant 0 <= i <= |syns|
      invariant Pick(q, columns, syns) == Pick(q, columns, syns[i..])
    {
      var s := syns[i];
      if Contains(q, s) {
        var c := Score(columns, s);
        if c.Some? && c.value != "" {
          return c;
        }
      }
      assert syns[i..][1..] == syns[i + 1..];
      i := i + 1;
    }
    return None;
  }

  /** guessColumns, with its nested loops and early exits. */
  method GuessColumns(question: string, columns: seq<string>) returns (result: map<Role, string>)
    ensures result == GuessSpec(question, columns)
  {
    var q := Normalize(question);
    result := PickAll(q, columns, SynonymsOf);
    if Cliente !in result || result[Cliente] == "" {
      var found := FuzzyScan(q, columns);
      if found.Some? {
        result := result[Cliente := columns[found.value]];
      }
    }
  }

  /** The outer loop of guessColumns over the keys, with the synonym table
      as a parameter. */
  method PickAll(q: string, columns: seq<string>, table: Role -> seq<string>) returns (result: map<Role, string>)
    ensures result == PicksUpTo(q, columns, table, |Roles|)
  {
    result := map[];
    var k := 0;
    while k < |Roles|
      invariant 0 <= k <= |Roles|
      invariant result == PicksUpTo(q, columns, table, k)
    {
      var key := Roles[k];
      var col := FirstHit(q, columns, table(key));
      PicksNext(q, columns, table, k);
      if col.Some? {
        result := result[key := col.value];
      }
      k := k + 1;
    }
  }

  /** One pass of the outer loop: key k is set to its pick, if any. */
  lemma PicksNext(q: string, columns: seq<string>, table: Role -> seq<string>, k: nat)
    requires k < |Roles|
    ensures PicksUpTo(q, columns, table, k + 1) ==
      match Pick(q, columns, table(Roles[k]))
      case Some(c) => PicksUpTo(q, columns, table, k)[Roles[k] := c]
      case None => PicksUpTo(q, columns, table, k)
  {
  }

  /** The fallback loop of guessColumns: the first column whose normalised
      name holds a letter and occurs in the question. */
  method FuzzyScan(q: string, columns: seq<string>) returns (found: Option<nat>)
    ensures found == FuzzyIndex(q, columns)
  {
    var i := 0;
    while i < |columns|
      invariant 0 <= i <= |columns|
      invariant FuzzyIndex(q, columns).Some? ==>
        FuzzyIndex(q, columns[i..]).Some? && FuzzyIndex(q, columns).value == i + FuzzyIndex(q, columns[i..]).value
      invariant FuzzyIndex(q, columns).None? ==> FuzzyIndex(q, columns[i..]).None?
    {
      var n := Normalize(columns[i]);
      if HasLetter(n) && Contains(q, n) {
        return Some(i);
      }
      assert columns[i..][1..] == columns[i + 1..];
      i := i + 1;
    }
    return None;
  }

  /** The position of a key in the loop's order. */
  function RoleIndex(r: Role): (i: nat)
    ensures i < |Roles| && Roles[i] == r
    ensures forall j :: 0 <= j < |Roles| && Roles[j] == r ==> j == i
  {
    match r
    case Cliente => 0
    case Produto => 1
    case Categoria => 2
    case Data => 3
    case Valor => 4
    case Quantidade => 5
    case Processos => 6
  }

  /** The key at position k of the role table is r exactly when r's
      position is k. */
  lemma RoleAt(k: nat, r: Role)
    requires k < |Roles|
    ensures Roles[k] == r <==> RoleIndex(r) == k
  {
    if Roles[k] != r {
      assert Roles[RoleIndex(r)] == r;
    }
  }

  /** After the first n keys, key r is set exactly when it is among them and
      one of its synonyms is a hit. */
  lemma {:induction false} PicksUpToKeys(q: string, columns: seq<string>, table: Role -> seq<string>, n: nat, r: Role)
    requires n <= |Roles|
    ensures r in PicksUpTo(q, columns, table, n) <==> RoleIndex(r) < n && PickFor(q, columns, table, r).Some?
  {
    if n > 0 {
      PicksUpToKeys(q, columns, table, n - 1, r);
      PicksStep(q, columns, table, n, r);
      RoleAt(n - 1, r);
    }
  }

  /** A key set by the first n passes holds the column of its own first hit:
      no later key overwrites it. */
  lemma {:induction false} PicksUpToValues(q: string, columns: seq<string>, table: Role -> seq<string>, n: nat, r: Role)
    requires n <= |Roles|
    ensures r in PicksUpTo(q, columns, table, n) ==>
      PickFor(q, columns, table, r).Some? && PicksUpTo(q, columns, table, n)[r] == PickFor(q, columns, table, r).value
  {
    if n > 0 {
      PicksUpToValues(q, columns, table, n - 1, r);
      PicksStep(q, columns, table, n, r);
    }
  }

  /** After the first n keys, key r is set exactly when it is among them and
      one of its synonyms is a hit, and then to the column of the first hit. */
  lemma PicksUpToAt(q: string, columns: seq<string>, table: Role -> seq<string>, n: nat, r: Role)
    requires n <= |Roles|
    ensures r in PicksUpTo(q, columns, table, n) <==> RoleIndex(r) < n && PickFor(q, columns, table, r).Some?
    ensures r in PicksUpTo(q, columns, table, n) ==> PicksUpTo(q, columns, table, n)[r] == PickFor(q, columns, table, r).value
  {
    PicksUpToKeys(q, columns, table, n, r);
    PicksUpToValues(q, columns, table, n, r);
  }

  /** The k-th pass of the synonym loop sets its own key, if it hits, and
      leaves the others alone. */
  lemma PicksStep(q: string, columns: seq<string>, table: Role -> seq<string>, n: nat, r: Role)
    requires 0 < n <= |Roles|
    ensures var hit := r == Roles[n - 1] && PickFor(q, columns, table, r).Some?;
      (r in PicksUpTo(q, columns, table, n) <==> hit || r in PicksUpTo(q, columns, table, n - 1))
      && (hit ==> PicksUpTo(q, columns, table, n)[r] == PickFor(q, columns, table, r).value)
      && (!hit && r in PicksUpTo(q, columns, table, n - 1) ==>
            PicksUpTo(q, columns, table, n)[r] == PicksUpTo(q, columns, table, n - 1)[r])
  {
  }

  /** The keys the synonym loop sets, and the column each gets. */
  lemma PicksAll(q: string, columns: seq<string>, r: Role)
    ensures var hit := HitIndex(q, columns, SynonymsOf(r));
      (r in PicksUpTo(q, columns, SynonymsOf, |Roles|) <==> hit.Some?)
      && (hit.Some? ==> PicksUpTo(q, columns, SynonymsOf, |Roles|)[r] == columns[ColumnIndex(columns, SynonymsOf(r)[hit.value]).value])
  {
    PicksUpToAt(q, columns, SynonymsOf, |Roles|, r);
  }

  /** Every column guessColumns returns is one of the columns. */
  lemma GuessValuesAreColumns(question: string, columns: seq<string>, r: Role)
    requires r in GuessSpec(question, columns)
    ensures GuessSpec(question, columns)[r] in columns
  {
    PicksAll(Normalize(question), columns, r);
  }

  /** A key is set from its synonyms exactly when one of them is a hit: it
      occurs in the normalised question and in some column's normalised
      name. The first such synonym in list order wins, and for it the first
      such column in column order; only "cliente" has a second way in. */
  lemma GuessFromSynonyms(question: string, columns: seq<string>, r: Role)
    ensures var hit := HitIndex(Normalize(question), columns, SynonymsOf(r));
      r != Cliente ==> (r in GuessSpec(question, columns) <==> hit.Some?)
    ensures var hit := HitIndex(Normalize(question), columns, SynonymsOf(r));
      hit.Some? ==> (r in GuessSpec(question, columns)
        && GuessSpec(question, columns)[r] == columns[ColumnIndex(columns, SynonymsOf(r)[hit.value]).value])
  {
    var q := Normalize(question);
    PicksAll(q, columns, r);
    GuessOnPicks(question, columns, r);
    if r == Cliente {
      var hit := HitIndex(q, columns, SynonymsOf(Cliente));
      if hit.Some? {
        assert Hit(q, columns, SynonymsOf(Cliente)[hit.value]);
      }
    }
  }

  /** The fallback touches "cliente" only: every other key is as the
      synonym loop left it, and so is "cliente" when the loop gave it a
      non-empty column. */
  lemma GuessOnPicks(question: string, columns: seq<string>, r: Role)
    ensures var m := PicksUpTo(Normalize(question), columns, SynonymsOf, |Roles|);
      r != Cliente || (r in m && m[r] != "") ==>
        (r in GuessSpec(question, columns) <==> r in m)
        && (r in m ==> GuessSpec(question, columns)[r] == m[r])
  {
  }

  /** The fallback sets "cliente" only when no synonym of "cliente" was a
      hit, and then to the first column whose normalised name holds a letter
      a-z and occurs in the question. */
  lemma GuessFallback(question: string, columns: seq<string>)
    requires HitIndex(Normalize(question), columns, SynonymsOf(Cliente)).None?
    ensures var q := Normalize(question);
      Cliente in GuessSpec(question, columns) <==> FuzzyIndex(q, columns).Some?
    ensures var q := Normalize(question);
      FuzzyIndex(q, columns).Some? ==> GuessSpec(question, columns)[Cliente] == columns[FuzzyIndex(q, columns).value]
  {
    PicksAll(Normalize(question), columns, Cliente);
  }

  /** The accented synonyms "m\U{EA}s", "pre\U{E7}o" and "n\U{FA}mero" are
      compared with the normalised question as written, so they never hit. */
  lemma AccentedSynonymsNeverMatch(question: string)
    ensures !Contains(Normalize(question), SynonymsOf(Data)[5])
    ensures !Contains(Normalize(question), SynonymsOf(Valor)[4])
    ensures !Contains(Normalize(question), SynonymsOf(Quantidade)[5])
  {
    NotNormalNeverOccurs(question, SynonymsOf(Data)[5], 1);
    NotNormalNeverOccurs(question, SynonymsOf(Valor)[4], 3);
    NotNormalNeverOccurs(question, SynonymsOf(Quantidade)[5], 1);
  }
}
