/** The task-template catalog as the workflow code sees it: the `TaskTemplate`
    table, the two queries it issues (`filter(pk__in=ids)` and `get(pk=id)`), the
    parsing of a comma-separated id list, and the loop that puts fetched templates
    back into the order of the list. */
module Catalog {
  import opened Results
  import Text

  /** A `TaskTemplate` row; only the columns the core reads are kept.
      `productInput` is the id of the required input `ItemType`. */
  datatype TaskTemplate = TaskTemplate(id: int, name: string, productInput: int)

  /** The `TaskTemplate` table, rows in storage order. */
  type Table = seq<TaskTemplate>

  /** Primary keys are unique. */
  predicate Keyed(table: Table) {
    forall i, j :: 0 <= i < j < |table| ==> table[i].id != table[j].id
  }

  /** The first row whose id is `id`, or `None`. This is both the generator
      `next((obj for obj in rows if obj.id == id), None)` and `get(pk=id)` with
      `DoesNotExist` turned into `None`. */
  function FindById(rows: seq<TaskTemplate>, id: int): (r: Option<TaskTemplate>)
    ensures r.Some? ==> r.value in rows && r.value.id == id
    ensures r.None? <==> forall t :: t in rows ==> t.id != id
  {
    if rows == [] then None
    else if rows[0].id == id then Some(rows[0])
    else FindById(rows[1..], id)
  }

  /** In a keyed table, looking up a row's own id finds that row. */
  lemma {:induction false} FindKeyedRow(table: Table, t: TaskTemplate)
    requires Keyed(table) && t in table
    ensures FindById(table, t.id) == Some(t)
  {
    if table[0] != t {
      assert table[0].id != t.id by {
        var k :| 0 <= k < |table| && table[k] == t;
      }
      assert Keyed(table[1..]) by {
        forall i, j | 0 <= i < j < |table[1..]| ensures table[1..][i].id != table[1..][j].id {
          assert table[1..][i] == table[i + 1] && table[1..][j] == table[j + 1];
        }
      }
      FindKeyedRow(table[1..], t);
    }
  }

  /** `TaskTemplate.objects.filter(pk__in=ids)`: the rows whose id is listed, in
      table order, each once. */
  function FetchByIds(table: Table, ids: seq<int>): (batch: seq<TaskTemplate>)
    ensures forall t :: t in batch <==> t in table && t.id in ids
  {
    if table == [] then []
    else if table[0].id in ids then [table[0]] + FetchByIds(table[1..], ids)
    else FetchByIds(table[1..], ids)
  }

  /** Searching the fetched batch for a listed id finds what searching the whole
      table would: fetching first loses nothing. */
  lemma {:induction false} BatchLookup(table: Table, ids: seq<int>, id: int)
    requires id in ids
    ensures FindById(FetchByIds(table, ids), id) == FindById(table, id)
  {
    if table != [] {
      BatchLookup(table[1..], ids, id);
      if table[0].id in ids {
        assert ([table[0]] + FetchByIds(table[1..], ids))[1..] == FetchByIds(table[1..], ids);
      }
    }
  }

  /** Piece `k` is the first that `int()` rejects, with error `e`. */
  predicate FirstBadPiece(pieces: seq<string>, k: int, e: Text.ValueError) {
    && 0 <= k < |pieces|
    && Text.ParseInt(pieces[k]) == Err(e)
    && forall i :: 0 <= i < k ==> Text.ParseInt(pieces[i]).Ok?
  }

  lemma FirstBadPieceShifts(pieces: seq<string>, k: int, e: Text.ValueError)
    requires |pieces| > 0 && Text.ParseInt(pieces[0]).Ok? && FirstBadPiece(pieces[1..], k, e)
    ensures FirstBadPiece(pieces, k + 1, e)
  {
    forall i | 0 <= i < k + 1 ensures Text.ParseInt(pieces[i]).Ok? {
      if i > 0 {
        assert pieces[i] == pieces[1..][i - 1];
      }
    }
    assert pieces[k + 1] == pieces[1..][k];
  }

  /** `[int(v) for v in pieces]`: the first piece that is not an integer raises. */
  function ParseAll(pieces: seq<string>): (r: Result<seq<int>, Text.ValueError>)
    ensures r.Ok? ==> |r.value| == |pieces|
    ensures r.Ok? ==> forall i :: 0 <= i < |pieces| ==> Text.ParseInt(pieces[i]) == Ok(r.value[i])
    ensures r.Err? ==> exists k :: FirstBadPiece(pieces, k, r.error)
  {
    if pieces == [] then Ok([])
    else match Text.ParseInt(pieces[0])
      case Err(e) =>
        assert FirstBadPiece(pieces, 0, e);
        Err(e)
      case Ok(n) =>
        match ParseAll(pieces[1..])
        case Err(e) =>
          var k :| FirstBadPiece(pieces[1..], k, e);
          FirstBadPieceShifts(pieces, k, e);
          Err(e)
        case Ok(rest) => Ok([n] + rest)
  }

  /** `[int(v) for v in text.split(',')]`. */
  function ParseIdList(text: string): (r: Result<seq<int>, Text.ValueError>)
    ensures r.Ok? ==> |r.value| == 1 + Text.Count(text, ',')
    ensures r.Err? ==> exists k :: FirstBadPiece(Text.Split(text, ','), k, r.error)
  {
    ParseAll(Text.Split(text, ','))
  }

  /** The text a comma-separated integer column holds for a non-empty id list:
      `','.join(str(i) for i in ids)`. */
  function FormatIdList(ids: seq<int>): string
    requires |ids| > 0
  {
    Text.Join(seq(|ids|, i requires 0 <= i < |ids| => Text.FormatInt(ids[i])), ',')
  }

  /** Parsing the stored text of a non-empty id list gives back the list, in order. */
  lemma ParseFormattedIdList(ids: seq<int>)
    requires |ids| > 0
    ensures ParseIdList(FormatIdList(ids)) == Ok(ids)
  {
    var pieces := seq(|ids|, i requires 0 <= i < |ids| => Text.FormatInt(ids[i]));
    forall i | 0 <= i < |pieces| ensures ',' !in pieces[i] && Text.ParseInt(pieces[i]) == Ok(ids[i]) {
      Text.FormatThenParse(ids[i]);
    }
    Text.SplitJoin(pieces, ',');
    var r := ParseAll(pieces);
    assert r.Ok?;
    assert r.value == ids;
  }

  /** The empty text is not an id list: `int('')` raises. */
  lemma EmptyIdListFails()
    ensures ParseIdList("") == Err(Text.InvalidLiteral(""))
  {
    assert Text.Split("", ',') == [""];
  }

  /** The ordering loop of `get_tasks`: one batch query, then for each listed id,
      in order, the fetched template with that id or `None`. */
  method ResolveIds(ids: seq<int>, table: Table) returns (ordered: seq<Option<TaskTemplate>>)
    ensures |ordered| == |ids|
    ensures forall i :: 0 <= i < |ids| ==> ordered[i] == FindById(table, ids[i])
    ensures forall i, j :: 0 <= i < |ids| && 0 <= j < |ids| && ids[i] == ids[j] ==> ordered[i] == ordered[j]
  {
    var batch := FetchByIds(table, ids);
    ordered := [];
    for k := 0 to |ids|
      invariant |ordered| == k
      invariant forall i :: 0 <= i < k ==> ordered[i] == FindById(table, ids[i])
    {
      var found := FindById(batch, ids[k]);
      BatchLookup(table, ids, ids[k]);
      ordered := ordered + [found];
    }
  }
}
