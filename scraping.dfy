/**
 * What the client reads out of the portal's pages: the login form's
 * action and the verdict on the login reply (`_get_login_page`,
 * `_post_login_page`), the contract table (`_get_contract`) and the
 * arguments of the export request (`_get_excel_historic_data`).
 */
module Scraping {
  import opened Wrappers
  import opened Energir
  import opened Html

  // ---------------------------------------------------------------- login

  /** `soup.find('form', {'id': 'target'})`. */
  const LoginForm := Query("form", Some("target"), None)

  /**
   * The URL the credentials are posted to: the action of the first form
   * with id "target", appended to the home URL after a slash.
   */
  function LoginPageUrl(page: Page): (r: Result<string, Error>)
    ensures r == Err(NoLoginForm) <==> NoneIn(Descendants(page), LoginForm)
    ensures r == Err(NoLoginUrl) <==>
      exists form :: FirstIn(Descendants(page), LoginForm, form) && "action" !in form.attrs
    ensures r.Ok? <==>
      exists form :: FirstIn(Descendants(page), LoginForm, form) && "action" in form.attrs
    ensures r.Ok? ==>
      exists form :: FirstIn(Descendants(page), LoginForm, form) && "action" in form.attrs &&
        r.value == HomeUrl + "/" + form.attrs["action"]
  {
    match Find(page, LoginForm)
    case None => Err(NoLoginForm)
    case Some(form) =>
      match Attr(form, "action")
      case None => Err(NoLoginUrl)
      case Some(action) => Ok(HomeUrl + "/" + action)
  }

  /** The form action can be read back from the login URL: the home URL and a slash are all that is added. */
  lemma LoginPageUrlKeepsAction(page: Page)
    requires LoginPageUrl(page).Ok?
    ensures var url := LoginPageUrl(page).value;
      && |url| > |HomeUrl|
      && url[..|HomeUrl| + 1] == HomeUrl + "/"
      && Attr(Find(page, LoginForm).value, "action") == Some(url[|HomeUrl| + 1..])
  {
    var url, action := LoginPageUrl(page).value, Find(page, LoginForm).value.attrs["action"];
    assert url == (HomeUrl + "/") + action;
  }

  /** The form fields of the login POST. */
  function LoginFields(username: string, password: string): seq<(string, string)> {
    [("j_username", username), ("j_password", password)]
  }

  /**
   * The verdict on the reply to the login POST: accepted exactly when the
   * status is 302 and the Location header is the profile URL.
   */
  function CheckLogin(status: int, location: Option<string>): (r: Outcome<Error>)
    ensures r.Pass? <==> status == Found && location == Some(ProfileUrl)
    ensures r.Fail? ==> r.error == LoginRejected
  {
    if status != Found then Fail(LoginRejected)
    else if location != Some(ProfileUrl) then Fail(LoginRejected)
    else Pass
  }

  // ------------------------------------------------------- contract table

  const ContractTableQuery := Query("table", Some("tableComptes"), None)
  const TableBodyQuery := Query("tbody", None, None)
  const TableRowQuery := Query("tr", None, None)

  /** `soup.find('table', id='tableComptes').tbody.find_all('tr')`. */
  function ContractRows(page: Page): Result<seq<Node>, Error> {
    match Find(page, ContractTableQuery)
    case None => Err(NoContractTable)
    case Some(table) =>
      match Find(table.children, TableBodyQuery)
      case None => Err(NoTableBody)
      case Some(body) => Ok(FindAll(body.children, TableRowQuery))
  }

  /** Length of the prefix of a row id before the contract number. */
  const RowIdPrefix := 5

  /** `row_id[5:]`: Python's slice is empty when the id is shorter than the prefix. */
  function ContractId(rowId: string): string {
    if |rowId| <= RowIdPrefix then "" else rowId[RowIdPrefix..]
  }

  /** `not self._contracts or self._contracts[0] == contract_id`. */
  predicate Wanted(configured: seq<string>, id: string) {
    |configured| == 0 || configured[0] == id
  }

  /** `node.find('a', id=f"link-{contract_id}")`. */
  function LinkQuery(id: string): Query {
    Query("a", Some("link-" + id), None)
  }

  /**
   * A Python dict from contract id to link, in insertion order: keys are
   * unique, a new key goes at the end, an existing key keeps its place.
   */
  type Contracts = seq<(string, Option<string>)>

  function Keys(d: Contracts): seq<string> {
    seq(|d|, k requires 0 <= k < |d| => d[k].0)
  }

  predicate UniqueKeys(d: Contracts) {
    forall a, b :: 0 <= a < b < |d| ==> d[a].0 != d[b].0
  }

  /** The position of `key` in `d`. */
  function KeyIndex(d: Contracts, key: string): (r: Option<nat>)
    ensures r.Some? ==> r.value < |d| && d[r.value].0 == key
    ensures r.None? ==> key !in Keys(d)
    decreases |d|
  {
    if d == [] then None
    else if d[0].0 == key then Some(0)
    else match KeyIndex(d[1..], key)
      case None =>
        assert Keys(d) == [d[0].0] + Keys(d[1..]);
        None
      case Some(k) => Some(k + 1)
  }

  /** `d[key] = value`. */
  function Put(d: Contracts, key: string, value: Option<string>): (r: Contracts)
    ensures key in Keys(d) ==> Keys(r) == Keys(d)
    ensures key !in Keys(d) ==> Keys(r) == Keys(d) + [key]
    ensures (key, value) in r
    ensures |r| == |d| || |r| == |d| + 1
    ensures forall j :: 0 <= j < |d| && d[j].0 != key ==> r[j] == d[j]
  {
    match KeyIndex(d, key)
    case Some(k) =>
      var r := d[k := (key, value)];
      assert Keys(d)[k] == key && r[k] == (key, value);
      assert Keys(r) == Keys(d);
      r
    case None =>
      var r := d + [(key, value)];
      assert Keys(r) == Keys(d) + [key];
      r
  }

  /** The row makes `_get_contract` raise: it has no id, or it is kept and has no link. */
  predicate RowFails(row: Node, configured: seq<string>) {
    || "id" !in row.attrs
    || (var id := ContractId(row.attrs["id"]);
        Wanted(configured, id) && Find(row.children, LinkQuery(id)).None?)
  }

  /** The row is kept, under contract id `key`. */
  predicate RowKept(row: Node, configured: seq<string>, key: string) {
    "id" in row.attrs && ContractId(row.attrs["id"]) == key && Wanted(configured, key)
  }

  /** One turn of the loop over the table rows. */
  function ScanRow(d: Contracts, row: Node, configured: seq<string>): Result<Contracts, Error> {
    if "id" !in row.attrs then Err(RowWithoutId)
    else
      var id := ContractId(row.attrs["id"]);
      if !Wanted(configured, id) then Ok(d)
      else match Find(row.children, LinkQuery(id))
        case None => Err(NoContractLink(id))
        case Some(link) => Ok(Put(d, id, Attr(link, "href")))
  }

  /** The loop over the remaining rows, from the dict built so far. */
  function ScanRows(d: Contracts, rows: seq<Node>, configured: seq<string>): Result<Contracts, Error>
    decreases |rows|
  {
    if rows == [] then Ok(d)
    else match ScanRow(d, rows[0], configured)
      case Err(e) => Err(e)
      case Ok(d') => ScanRows(d', rows[1..], configured)
  }

  /** What `_get_contract` returns for the profile page. */
  function ContractTable(page: Page, configured: seq<string>): (r: Result<Contracts, Error>)
    ensures ContractRows(page).Err? ==> r == Err(ContractRows(page).error)
    ensures r.Ok? ==> ContractRows(page).Ok? && UniqueKeys(r.value)
  {
    match ContractRows(page)
    case Err(e) => Err(e)
    case Ok(rows) =>
      var t := ScanRows([], rows, configured);
      assert t.Ok? ==> UniqueKeys(t.value) by {
        if t.Ok? {
          ScanRowsUnique([], rows, configured);
        }
      }
      t
  }

  /** `_get_contract`'s parsing: find the table's rows, then fill the dict row by row. */
  method GetContract(page: Page, configured: seq<string>) returns (r: Result<Contracts, Error>)
    ensures r == ContractTable(page, configured)
  {
    var table := Find(page, ContractTableQuery);
    if table.None? {
      return Err(NoContractTable);
    }
    var body := Find(table.value.children, TableBodyQuery);
    if body.None? {
      return Err(NoTableBody);
    }
    var rows := FindAll(body.value.children, TableRowQuery);
    var contracts: Contracts := [];
    var i := 0;
    while i < |rows|
      invariant 0 <= i <= |rows|
      invariant ScanRows(contracts, rows[i..], configured) == ScanRows([], rows, configured)
    {
      assert rows[i..][0] == rows[i] && rows[i..][1..] == rows[i + 1..];
      var node := rows[i];
      if "id" !in node.attrs {
        return Err(RowWithoutId);
      }
      var id := ContractId(node.attrs["id"]);
      if Wanted(configured, id) {
        var link := Find(node.children, LinkQuery(id));
        if link.None? {
          return Err(NoContractLink(id));
        }
        contracts := Put(contracts, id, Attr(link.value, "href"));
      }
      i := i + 1;
    }
    assert rows[i..] == [];
    return Ok(contracts);
  }

  /**
   * The table fails exactly when one of its rows does: a row without an id,
   * or a kept row without its link. A row that is not kept needs no link.
   */
  lemma {:induction false} ScanRowsFails(d: Contracts, rows: seq<Node>, configured: seq<string>)
    ensures ScanRows(d, rows, configured).Err? <==> exists k :: 0 <= k < |rows| && RowFails(rows[k], configured)
    decreases |rows|
  {
    if rows != [] {
      var step := ScanRow(d, rows[0], configured);
      assert step.Err? <==> RowFails(rows[0], configured);
      if step.Ok? {
        ScanRowsFails(step.value, rows[1..], configured);
        assert forall k :: 1 <= k < |rows| ==> rows[k] == rows[1..][k - 1];
      }
    }
  }

  /** The keys are those already present and the contract ids of the kept rows. */
  lemma {:induction false} ScanRowsKeys(d: Contracts, rows: seq<Node>, configured: seq<string>, key: string)
    requires ScanRows(d, rows, configured).Ok?
    ensures key in Keys(ScanRows(d, rows, configured).value) <==>
      key in Keys(d) || exists k :: 0 <= k < |rows| && RowKept(rows[k], configured, key)
    decreases |rows|
  {
    if rows != [] {
      var d' := ScanRow(d, rows[0], configured).value;
      ScanRowsKeys(d', rows[1..], configured, key);
      assert forall k :: 1 <= k < |rows| ==> rows[k] == rows[1..][k - 1];
      assert key in Keys(d') <==> key in Keys(d) || RowKept(rows[0], configured, key);
    }
  }

  /** Filling the dict never repeats a key. */
  lemma {:induction false} ScanRowsUnique(d: Contracts, rows: seq<Node>, configured: seq<string>)
    requires UniqueKeys(d) && ScanRows(d, rows, configured).Ok?
    ensures UniqueKeys(ScanRows(d, rows, configured).value)
    decreases |rows|
  {
    if rows != [] {
      var d' := ScanRow(d, rows[0], configured).value;
      if d' != d {
        var id := ContractId(rows[0].attrs["id"]);
        PutKeepsUnique(d, id, Attr(Find(rows[0].children, LinkQuery(id)).value, "href"));
      }
      ScanRowsUnique(d', rows[1..], configured);
    }
  }

  lemma PutKeepsUnique(d: Contracts, key: string, value: Option<string>)
    requires UniqueKeys(d)
    ensures UniqueKeys(Put(d, key, value))
  {
    var r := Put(d, key, value);
    forall a, b | 0 <= a < b < |r| ensures r[a].0 != r[b].0 {
      assert r[a].0 == Keys(r)[a] && r[b].0 == Keys(r)[b];
      assert forall k :: 0 <= k < |d| ==> Keys(d)[k] == d[k].0;
    }
  }

  /** Each key of the discovered contracts is a kept row's id with its 5-character prefix removed. */
  lemma ContractTableKeys(page: Page, configured: seq<string>, key: string)
    requires ContractTable(page, configured).Ok?
    ensures UniqueKeys(ContractTable(page, configured).value)
    ensures var rows := ContractRows(page).value;
      key in Keys(ContractTable(page, configured).value) <==>
        exists k :: 0 <= k < |rows| && RowKept(rows[k], configured, key)
  {
    ScanRowsKeys([], ContractRows(page).value, configured, key);
    ScanRowsUnique([], ContractRows(page).value, configured);
  }

  /** With a configured contract only rows with that id are kept, so at most one contract is found. */
  lemma ConfiguredContractOnly(page: Page, configured: seq<string>)
    requires |configured| > 0 && ContractTable(page, configured).Ok?
    ensures var found := ContractTable(page, configured).value;
      |found| <= 1 && forall k :: 0 <= k < |found| ==> found[k].0 == configured[0]
  {
    var found := ContractTable(page, configured).value;
    var rows := ContractRows(page).value;
    forall k | 0 <= k < |found| ensures found[k].0 == configured[0] {
      assert found[k].0 == Keys(found)[k];
      ContractTableKeys(page, configured, found[k].0);
    }
    ContractTableKeys(page, configured, configured[0]);
    if |found| > 1 {
      KeysDiffer(found, 0, 1);
      assert false;
    }
  }

  lemma KeysDiffer(d: Contracts, a: nat, b: nat)
    requires UniqueKeys(d) && a < b < |d|
    ensures d[a].0 != d[b].0
  {
  }

  /** Every row has an id attribute. */
  predicate AllHaveIds(rows: seq<Node>) {
    forall k :: 0 <= k < |rows| ==> "id" in rows[k].attrs
  }

  /** The contract ids of the rows, in table order. */
  function RowIds(rows: seq<Node>): (ids: seq<string>)
    requires AllHaveIds(rows)
    ensures |ids| == |rows|
  {
    if rows == [] then [] else [ContractId(rows[0].attrs["id"])] + RowIds(rows[1..])
  }

  /** No two rows carry the same contract id. */
  predicate DistinctIds(ids: seq<string>) {
    forall a, b :: 0 <= a < b < |ids| ==> ids[a] != ids[b]
  }

  /**
   * With no configured contract and distinct contract ids, every row is
   * kept and the contracts come out in table order.
   */
  lemma {:induction false} ScanRowsInTableOrder(d: Contracts, rows: seq<Node>)
    requires AllHaveIds(rows) && ScanRows(d, rows, []).Ok?
    requires DistinctIds(Keys(d) + RowIds(rows))
    ensures Keys(ScanRows(d, rows, []).value) == Keys(d) + RowIds(rows)
    decreases |rows|
  {
    if rows != [] {
      var id, tail := ContractId(rows[0].attrs["id"]), rows[1..];
      assert RowIds(rows) == [id] + RowIds(tail);
      DistinctMove(Keys(d), id, RowIds(tail));
      var d' := ScanRow(d, rows[0], []).value;
      ScanRowAppends(d, rows[0]);
      assert ScanRows(d, rows, []) == ScanRows(d', tail, []);
      AppendAssoc(Keys(d), id, RowIds(tail));
      ScanRowsInTableOrder(d', tail);
    }
  }

  /** A kept row whose contract id is new appends that id to the keys. */
  lemma ScanRowAppends(d: Contracts, row: Node)
    requires "id" in row.attrs && ScanRow(d, row, []).Ok?
    requires ContractId(row.attrs["id"]) !in Keys(d)
    ensures Keys(ScanRow(d, row, []).value) == Keys(d) + [ContractId(row.attrs["id"])]
  {
  }

  lemma AppendAssoc(xs: seq<string>, x: string, ys: seq<string>)
    ensures (xs + [x]) + ys == xs + ([x] + ys)
  {
  }

  lemma DistinctMove(xs: seq<string>, x: string, ys: seq<string>)
    requires DistinctIds(xs + ([x] + ys))
    ensures x !in xs && DistinctIds((xs + [x]) + ys)
  {
    AppendAssoc(xs, x, ys);
    var all := xs + ([x] + ys);
    assert all[|xs|] == x;
    forall k | 0 <= k < |xs| ensures xs[k] != x {
      assert all[k] == xs[k];
    }
  }

  /** So `_get_contract` without a configured contract lists the table's distinct contract ids in row order. */
  lemma ContractTableInRowOrder(page: Page)
    requires ContractTable(page, []).Ok?
    requires AllHaveIds(ContractRows(page).value) && DistinctIds(RowIds(ContractRows(page).value))
    ensures Keys(ContractTable(page, []).value) == RowIds(ContractRows(page).value)
  {
    var rows := ContractRows(page).value;
    assert Keys([]) + RowIds(rows) == RowIds(rows);
    ScanRowsInTableOrder([], rows);
  }

  // -------------------------------------------------------- export request

  const DynamicContentQuery := Query("div", Some("dynamicContent"), None)
  const BillFormQuery := Query("form", None, None)
  const BillCheckBoxQuery := Query("input", None, Some("billCheckBox"))

  /** The URL of a contract's bill history page. */
  function HistoryUrl(id: string): string {
    DataUrl + "?noCompte=" + id
  }

  /** `soup.find('div', id='dynamicContent').form.find_all('input', {"class": 'billCheckBox'})`. */
  function BillCheckBoxes(page: Page): Result<seq<Node>, Error> {
    match Find(page, DynamicContentQuery)
    case None => Err(NoDynamicContent)
    case Some(div) =>
      match Find(div.children, BillFormQuery)
      case None => Err(NoBillForm)
      case Some(form) => Ok(FindAll(form.children, BillCheckBoxQuery))
  }

  /** One query argument; `attrs.get` gives None for a missing name or value. */
  type Arg = (Option<string>, Option<string>)

  const AccountParam := "noCompte"
  const MethodParam := "method"
  const ExportMethod := "telechargerExcel"

  function CheckBoxArg(box: Node): Arg {
    (Attr(box, "name"), Attr(box, "value"))
  }

  /** The arguments of the export request. */
  function ExportArgs(boxes: seq<Node>, id: string): seq<Arg> {
    seq(|boxes|, k requires 0 <= k < |boxes| => CheckBoxArg(boxes[k]))
      + [(Some(AccountParam), Some(id)), (Some(MethodParam), Some(ExportMethod))]
  }

  /** Building the argument list: one pair per checkbox, then the account number and the method. */
  method BuildExportArgs(boxes: seq<Node>, id: string) returns (args: seq<Arg>)
    ensures args == ExportArgs(boxes, id)
  {
    args := [];
    for i := 0 to |boxes|
      invariant |args| == i
      invariant forall k :: 0 <= k < i ==> args[k] == CheckBoxArg(boxes[k])
    {
      args := args + [(Attr(boxes[i], "name"), Attr(boxes[i], "value"))];
    }
    args := args + [(Some(AccountParam), Some(id))];
    args := args + [(Some(MethodParam), Some(ExportMethod))];
  }

  /**
   * The checkbox (name, value) pairs come first, in document order, then
   * ("noCompte", id), then ("method", "telechargerExcel") last.
   */
  lemma ExportArgsLayout(boxes: seq<Node>, id: string)
    ensures var args := ExportArgs(boxes, id);
      && |args| == |boxes| + 2
      && (forall k :: 0 <= k < |boxes| ==> args[k] == (Attr(boxes[k], "name"), Attr(boxes[k], "value")))
      && args[|boxes|] == (Some("noCompte"), Some(id))
      && args[|boxes| + 1] == (Some("method"), Some("telechargerExcel"))
  {
  }
}
