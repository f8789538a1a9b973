/**
 * `EnergirClient`: a client that logs in to the portal, discovers the
 * customer's contracts and stores the bills of each in its `data` map.
 * The portal is given as its answers to the client's requests, so the
 * whole conversation is a function of them.
 */
module Client {
  import opened Wrappers
  import opened Energir
  import opened Html
  import opened Excel
  import opened Scraping

  /** The status and Location header of the reply to the login POST. */
  datatype LoginReply = LoginReply(status: int, location: Option<string>)

  /**
   * The portal as the client sees it: the parsed page a GET of each URL
   * returns, the reply to a login POST of form fields to a URL, and the
   * export bytes returned for a list of query arguments.
   */
  datatype Portal = Portal(
    page: string -> Page,
    login: (string, seq<(string, string)>) -> LoginReply,
    download: seq<Arg> -> Xls)

  /**
   * The first half of `fetch_data`: read the login form, post the
   * credentials, check the redirect, then read the contract table.
   */
  function Discover(portal: Portal, username: string, password: string, configured: seq<string>)
    : (r: Result<Contracts, Error>)
    ensures LoginPageUrl(portal.page(LoginUrl)).Err? ==> r == Err(LoginPageUrl(portal.page(LoginUrl)).error)
    ensures r.Ok? ==> LoginPageUrl(portal.page(LoginUrl)).Ok?
    ensures r.Ok? ==>
      var reply := portal.login(LoginPageUrl(portal.page(LoginUrl)).value, LoginFields(username, password));
      reply.status == Found && reply.location == Some(ProfileUrl)
    ensures r.Ok? ==> r == ContractTable(portal.page(ProfileUrl), configured) && UniqueKeys(r.value)
  {
    match LoginPageUrl(portal.page(LoginUrl))
    case Err(e) => Err(e)
    case Ok(url) =>
      var reply := portal.login(url, LoginFields(username, password));
      match CheckLogin(reply.status, reply.location)
      case Fail(e) => Err(e)
      case Pass => ContractTable(portal.page(ProfileUrl), configured)
  }

  /** What `_get_excel_historic_data` downloads for a contract. */
  function HistoricExport(portal: Portal, id: string): Result<Xls, Error> {
    match BillCheckBoxes(portal.page(HistoryUrl(id)))
    case Err(e) => Err(e)
    case Ok(boxes) => Ok(portal.download(ExportArgs(boxes, id)))
  }

  /** The bills of one contract: its export, decoded. */
  function ContractBills(portal: Portal, id: string): Result<seq<Bill>, Error> {
    match HistoricExport(portal, id)
    case Err(e) => Err(e)
    case Ok(xls) => XlsBills(xls)
  }

  /** A source of bills: what is downloaded and decoded for each contract id. */
  type Fetch = string -> Result<seq<Bill>, Error>

  /** The bills the portal gives for each contract. */
  function Fetcher(portal: Portal): Fetch {
    id => ContractBills(portal, id)
  }

  /**
   * The loop of `fetch_data` over the discovered contracts, in order, from
   * the map `d`: each contract's bills are stored under its id; the first
   * failure stops the loop, with what was stored before it kept.
   */
  function StoreBills(d: map<string, seq<Bill>>, fetch: Fetch, cs: Contracts)
    : (r: (map<string, seq<Bill>>, Outcome<Error>))
    ensures d.Keys <= r.0.Keys
    ensures forall key :: key in r.0 ==> key in d || key in Keys(cs)
    decreases |cs|
  {
    if cs == [] then (d, Pass)
    else match fetch(cs[0].0)
      case Err(e) => (d, Fail(e))
      case Ok(bills) =>
        assert Keys(cs) == [cs[0].0] + Keys(cs[1..]);
        StoreBills(d[cs[0].0 := bills], fetch, cs[1..])
  }

  /** `_get_excel_historic_data`: the history page's checkboxes give the arguments of the download. */
  method GetExcelHistoricData(portal: Portal, id: string) returns (r: Result<Xls, Error>)
    ensures r == HistoricExport(portal, id)
  {
    var page := portal.page(HistoryUrl(id));
    var div := Find(page, DynamicContentQuery);
    if div.None? {
      return Err(NoDynamicContent);
    }
    var form := Find(div.value.children, BillFormQuery);
    if form.None? {
      return Err(NoBillForm);
    }
    var args := BuildExportArgs(FindAll(form.value.children, BillCheckBoxQuery), id);
    return Ok(portal.download(args));
  }

  /**
   * A successful loop stores, under every discovered contract, that
   * contract's bills, and each of them decoded.
   */
  lemma {:induction false} StoreBillsComplete(d: map<string, seq<Bill>>, fetch: Fetch, cs: Contracts)
    requires StoreBills(d, fetch, cs).1.Pass?
    ensures forall k :: 0 <= k < |cs| ==> fetch(cs[k].0).Ok?
    ensures forall k :: 0 <= k < |cs| ==>
      cs[k].0 in StoreBills(d, fetch, cs).0 &&
      StoreBills(d, fetch, cs).0[cs[k].0] == fetch(cs[k].0).value
    decreases |cs|
  {
    if cs != [] {
      var head := cs[0].0;
      var bills := fetch(head);
      assert bills.Ok?;
      var d' := d[head := bills.value];
      var tail := cs[1..];
      var m := StoreBills(d, fetch, cs).0;
      assert m == StoreBills(d', fetch, tail).0;
      StoreBillsComplete(d', fetch, tail);
      StoreBillsKeepsOthers(d', fetch, tail, head);
      forall k | 0 <= k < |cs|
        ensures fetch(cs[k].0).Ok?
        ensures cs[k].0 in m && m[cs[k].0] == fetch(cs[k].0).value
      {
        if k == 0 {
          if head in Keys(tail) {
            var j :| 0 <= j < |tail| && Keys(tail)[j] == head;
            assert tail[j].0 == head;
          }
        } else {
          assert cs[k] == tail[k - 1];
        }
      }
    }
  }

  /**
   * A key that is not a discovered contract is left as it was, whether the
   * loop completes or stops on a failure, and no key is ever removed.
   */
  lemma {:induction false} StoreBillsKeepsOthers(d: map<string, seq<Bill>>, fetch: Fetch, cs: Contracts, key: string)
    ensures var m := StoreBills(d, fetch, cs).0;
      key !in Keys(cs) ==> (key in m <==> key in d) && (key in d ==> m[key] == d[key])
    ensures key in d ==> key in StoreBills(d, fetch, cs).0
    decreases |cs|
  {
    if cs != [] {
      assert Keys(cs) == [cs[0].0] + Keys(cs[1..]);
      if fetch(cs[0].0).Ok? {
        StoreBillsKeepsOthers(d[cs[0].0 := fetch(cs[0].0).value], fetch, cs[1..], key);
      }
    }
  }

  /**
   * A loop that stops reports the failure of a discovered contract, every
   * contract before which decoded.
   */
  lemma {:induction false} StoreBillsStops(d: map<string, seq<Bill>>, fetch: Fetch, cs: Contracts)
    requires StoreBills(d, fetch, cs).1.Fail?
    ensures exists k :: (
      && 0 <= k < |cs|
      && fetch(cs[k].0) == Err(StoreBills(d, fetch, cs).1.error)
      && forall j :: 0 <= j < k ==> fetch(cs[j].0).Ok?)
    decreases |cs|
  {
    var res := fetch(cs[0].0);
    if res.Ok? {
      var tail := cs[1..];
      StoreBillsStops(d[cs[0].0 := res.value], fetch, tail);
      var k :| 0 <= k < |tail| &&
        fetch(tail[k].0) == Err(StoreBills(d, fetch, cs).1.error) &&
        forall j :: 0 <= j < k ==> fetch(tail[j].0).Ok?;
      assert cs[k + 1] == tail[k];
      assert forall j :: 1 <= j < k + 1 ==> cs[j] == tail[j - 1];
    }
  }

  /**
   * A loop that meets its first failure at contract `k` ends as the loop
   * over the contracts before `k` does, which completes.
   */
  lemma {:induction false} StoreBillsStopPrefix(d: map<string, seq<Bill>>, fetch: Fetch, cs: Contracts, k: nat)
    requires k < |cs| && fetch(cs[k].0).Err?
    requires forall j :: 0 <= j < k ==> fetch(cs[j].0).Ok?
    ensures StoreBills(d, fetch, cs).1 == Fail(fetch(cs[k].0).error)
    ensures StoreBills(d, fetch, cs[..k]).1 == Pass
    ensures StoreBills(d, fetch, cs).0 == StoreBills(d, fetch, cs[..k]).0
    decreases k
  {
    if k > 0 {
      var d' := d[cs[0].0 := fetch(cs[0].0).value];
      var tail := cs[1..];
      assert cs[..k][0] == cs[0] && cs[..k][1..] == tail[..k - 1];
      assert forall j :: 0 <= j < k - 1 ==> tail[j] == cs[j + 1];
      StoreBillsStopPrefix(d', fetch, tail, k - 1);
    }
  }

  /**
   * What a stopped loop leaves in `data`: every contract before the first
   * failing one stored with its own bills, and every other key as it was
   * before the loop, present or absent.
   */
  lemma StoreBillsStopsAt(d: map<string, seq<Bill>>, fetch: Fetch, cs: Contracts, k: nat)
    requires k < |cs| && fetch(cs[k].0).Err?
    requires forall j :: 0 <= j < k ==> fetch(cs[j].0).Ok?
    ensures StoreBills(d, fetch, cs).1 == Fail(fetch(cs[k].0).error)
    ensures forall j :: 0 <= j < k ==>
      cs[j].0 in StoreBills(d, fetch, cs).0 &&
      StoreBills(d, fetch, cs).0[cs[j].0] == fetch(cs[j].0).value
    ensures forall key :: key !in Keys(cs[..k]) ==>
      var m := StoreBills(d, fetch, cs).0;
      (key in m <==> key in d) && (key in d ==> m[key] == d[key])
  {
    StoreBillsStopPrefix(d, fetch, cs, k);
    var prefix := cs[..k];
    StoreBillsComplete(d, fetch, prefix);
    forall j | 0 <= j < k
      ensures cs[j] == prefix[j]
    {
    }
    forall key | key !in Keys(prefix)
      ensures var m := StoreBills(d, fetch, prefix).0;
        (key in m <==> key in d) && (key in d ==> m[key] == d[key])
    {
      StoreBillsKeepsOthers(d, fetch, prefix, key);
    }
  }

  class EnergirClient {
    var username: string
    var password: string
    /** The configured contract, if any: a list of at most one id. */
    var contracts: seq<string>
    /** The bills fetched so far, by contract id. */
    var data: map<string, seq<Bill>>
    /** Whether the client holds an HTTP session. */
    var hasSession: bool
    var timeout: int

    /** `__init__`; pass `RequestsTimeout` for the default timeout. */
    constructor (username: string, password: string, contract: Option<string>, timeout: int, session: bool)
      ensures this.username == username && this.password == password
      ensures this.contracts == (if contract.Some? then [contract.value] else [])
      ensures this.data == map[]
      ensures this.hasSession == session && this.timeout == timeout
    {
      this.username := username;
      this.password := password;
      this.contracts := if contract.Some? then [contract.value] else [];
      this.data := map[];
      this.hasSession := session;
      this.timeout := timeout;
    }

    /** `_get_httpsession`: open a session unless one is held. */
    method GetHttpSession()
      modifies this
      ensures hasSession
      ensures username == old(username) && password == old(password) && contracts == old(contracts)
      ensures data == old(data) && timeout == old(timeout)
    {
      if !hasSession {
        hasSession := true;
      }
    }

    /** `_get_login_page`: the URL the login form posts to. */
    method GetLoginPage(portal: Portal) returns (r: Result<string, Error>)
      ensures r == LoginPageUrl(portal.page(LoginUrl))
    {
      var page := portal.page(LoginUrl);
      var form := Find(page, LoginForm);
      if form.None? {
        return Err(NoLoginForm);
      }
      var action := Attr(form.value, "action");
      if action.None? {
        return Err(NoLoginUrl);
      }
      return Ok(HomeUrl + "/" + action.value);
    }

    /** `_post_login_page`: post the credentials and check the redirect. */
    method PostLoginPage(portal: Portal, loginUrl: string) returns (r: Outcome<Error>)
      ensures var reply := portal.login(loginUrl, LoginFields(username, password));
        r.Pass? <==> reply.status == Found && reply.location == Some(ProfileUrl)
      ensures r.Fail? ==> r.error == LoginRejected
    {
      var reply := portal.login(loginUrl, LoginFields(username, password));
      r := CheckLogin(reply.status, reply.location);
    }

    /**
     * `fetch_data`: log in, discover the contracts, then store each
     * contract's bills in `data`, in table order. A failure before the
     * loop leaves `data` as it was; a failure inside it keeps the
     * contracts stored before it. Nothing else changes.
     */
    method FetchData(portal: Portal) returns (r: Outcome<Error>)
      modifies this
      ensures hasSession
      ensures username == old(username) && password == old(password) && contracts == old(contracts)
      ensures timeout == old(timeout)
      ensures match Discover(portal, username, password, contracts)
        case Err(e) => r == Fail(e) && data == old(data)
        case Ok(cs) => (data, r) == StoreBills(old(data), Fetcher(portal), cs)
    {
      GetHttpSession();
      var loginUrl := GetLoginPage(portal);
      if loginUrl.Err? {
        return Fail(loginUrl.error);
      }
      var accepted := PostLoginPage(portal, loginUrl.value);
      if accepted.Fail? {
        return accepted;
      }
      var found := GetContract(portal.page(ProfileUrl), contracts);
      if found.Err? {
        return Fail(found.error);
      }
      var cs := found.value;
      assert Discover(portal, username, password, contracts) == Ok(cs);
      r := StoreContracts(portal, cs);
    }

    /**
     * The loop of `fetch_data`: each contract's export is downloaded and
     * decoded, and its bills stored under its id, until one fails.
     */
    method StoreContracts(portal: Portal, cs: Contracts) returns (r: Outcome<Error>)
      modifies this
      ensures (data, r) == StoreBills(old(data), Fetcher(portal), cs)
      ensures username == old(username) && password == old(password) && contracts == old(contracts)
      ensures timeout == old(timeout) && hasSession == old(hasSession)
    {
      var i := 0;
      while i < |cs|
        invariant 0 <= i <= |cs|
        invariant username == old(username) && password == old(password) && contracts == old(contracts)
        invariant timeout == old(timeout) && hasSession == old(hasSession)
        invariant StoreBills(data, Fetcher(portal), cs[i..]) == StoreBills(old(data), Fetcher(portal), cs)
      {
        var id := cs[i].0;
        assert cs[i..][0].0 == id && cs[i..][1..] == cs[i + 1..];
        var xls := GetExcelHistoricData(portal, id);
        if xls.Err? {
          assert Fetcher(portal)(id) == Err(xls.error);
          return Fail(xls.error);
        }
        var bills := GetDataFromExcel(xls.value);
        if bills.Err? {
          assert Fetcher(portal)(id) == Err(bills.error);
          return Fail(bills.error);
        }
        assert Fetcher(portal)(id) == Ok(bills.value);
        data := data[id := bills.value];
        i := i + 1;
      }
      assert cs[i..] == [];
      return Pass;
    }

    /**
     * `get_data`: everything fetched, or the bills of one contract alone;
     * an unknown contract is an error.
     */
    function GetData(contract: Option<string>): (r: Result<map<string, seq<Bill>>, Error>)
      reads this
      ensures contract.None? ==> r == Ok(data)
      ensures contract.Some? ==> (r.Ok? <==> contract.value in data)
      ensures contract.Some? && r.Err? ==> r.error == ContractNotFound(contract.value)
      ensures contract.Some? && r.Ok? ==>
        r.value.Keys == {contract.value} && r.value[contract.value] == data[contract.value]
    {
      match contract
      case None => Ok(data)
      case Some(c) =>
        if c in data then Ok(map[c := data[c]]) else Err(ContractNotFound(c))
    }

    /** `get_contracts`: the ids of the contracts fetched. */
    function GetContracts(): (r: set<string>)
      reads this
      ensures forall c :: c in r <==> GetData(Some(c)).Ok?
    {
      data.Keys
    }
  }

  /** Whatever `get_data` returns for one contract is part of what it returns for all. */
  lemma GetDataOneIsPartOfAll(client: EnergirClient, c: string)
    requires client.GetData(Some(c)).Ok?
    ensures var one, all := client.GetData(Some(c)).value, client.GetData(None).value;
      c in all && one == map[c := all[c]] && c in client.GetContracts()
  {
  }
}
