# pyenergir client core, modelled in Dafny

pyenergir fetches a customer's natural-gas bills from Energir's web portal.
`EnergirClient` logs in through the portal's login form, reads the
customer's contracts from the profile page, downloads each contract's bill
history as a spreadsheet, and keeps one list of bills per contract. This
project models the deterministic part of that client. Pages, replies and
spreadsheets are plain data. Network answers are inputs.

- `wrappers.dfy` (`Wrappers`): `Option`, `Result`, and `Outcome`. A call that returns normally is `Ok`/`Pass`. A call that raises is `Err`/`Fail`.
- `energir.dfy` (`Energir`): the portal URLs and the default timeout. It also holds `Error`, with one constructor for every exception the model raises. The transport errors at client.py:58, 90, 102 and 147 are not among them.
- `html.dfy` (`Html`): a parsed page as a tree of elements. `Find` and `FindAll` walk it in document order, as BeautifulSoup's `find` and `find_all` do.
- `period.dfy` (`Period`): the regular expression that reads a billing period's two dates. It states what the pattern matches, and which match `re.search` reports (leftmost start, greedy `.*`, `.` does not match a newline). It proves that the search computes exactly that match.
- `excel.dfy` (`Excel`): `_get_data_from_excel`. Rows 0 to 2 are skipped. Every later row becomes one bill.
- `scraping.dfy` (`Scraping`): the login form's action and the login verdict. Also the contract table, kept by the configured contract, and the argument list of the export request.
- `client.dfy` (`Client`): the portal as a value (`Portal`: the page each GET returns, the reply to the login POST, the export each argument list returns). The `EnergirClient` class holds the same fields as the Python object. `FetchData` fills `data` in a loop.

Behaviour one might expect of such a client that the code does not have:

- a failing `fetch_data` keeps the contracts stored before the failure, so results are not all-or-nothing;
- a configured contract that is not in the table gives an empty result, not an error;
- a period needs two date-shaped substrings on one line, not exactly two in the cell: with more, the first and the last on that line are taken;
- the consumption cell is not checked;
- the contract's detail page is never loaded;
- only rows that are kept need a `link-<id>` anchor.

## Model

| member | source | states |
|---|---|---|
| `Period.ExtractPeriod` | pyenergir/client.py:128-131 | both extracted dates are exactly ten characters of the form `DDDD-DD-DD` |
| `Period.ExtractPeriodIsSearch` | pyenergir/client.py:128-131 | dates are found exactly when the pattern matches somewhere; they are the groups of the leftmost, greedy match |
| `Period.SearchIsLeftmostGreedy` | pyenergir/client.py:128-129 | the search reports the match with the leftmost start and, from there, the rightmost second date; None exactly when nothing matches |
| `Period.SearchFromIsLeftmost` | pyenergir/client.py:128-129 | no match starts before the reported one, and none ends further right from the same start |
| `Period.GroupTwoIsGreedy` | pyenergir/client.py:128 | from a given first date, `.*` takes the last possible second date |
| `Period.LastDateBetweenIsLast` | pyenergir/client.py:128 | the backward scan finds the last date-shaped substring in a range, or proves there is none |
| `Period.LineEndIsFirstNewline` | pyenergir/client.py:128 | the scan for the end of the line stops at the first newline |
| `Period.SameLine` | pyenergir/client.py:128 | a later date can be group 2 exactly when it ends on the first date's line, since `.` does not match a newline |
| `Period.FewerThanTwoDates` | pyenergir/client.py:128-130 | fewer than two non-overlapping date-shaped substrings means no match, so the row fails |
| `Period.DatesOnTwoLines` | pyenergir/client.py:128-130 | two dates separated by a newline do not match |
| `Period.TwoDatesOneLine` | pyenergir/client.py:128-131 | "start au end" yields (start, end) |
| `Excel.RowBill` | pyenergir/client.py:125-131 | a row decodes exactly when it has cell 5, cell 2 is text, and the pattern matches it; the bill carries cell 5 and the two dates. The errors come in the source's order: a row without cell 2 fails on column 2, a row without cell 5 on column 5, then a number in cell 2, then no match |
| `Excel.SheetBills` | pyenergir/client.py:124-140 | the sheet decodes exactly when all its data rows do; a failure is the error of one of its data rows |
| `Excel.DecodeSheet` | pyenergir/client.py:124-140 | the loop over rows 3 to nrows-1 returns the bills of `SheetBills`, or the first failing row's error |
| `Excel.XlsBills` | pyenergir/client.py:120-121 | bytes that are not a workbook fail; the bills are exactly those of a workbook whose first sheet decodes, one per data row |
| `Excel.GetDataFromExcel` | pyenergir/client.py:117-140 | unreadable bytes and a workbook without sheets fail; otherwise the first sheet is decoded |
| `Excel.BillsFollowRows` | pyenergir/client.py:124-138 | max(0, nrows-3) bills; bill k comes from row k+3, carries cell 5 unchanged, and its dates are the match in cell 2 |
| `Excel.HeaderOnlySheet` | pyenergir/client.py:124 | a sheet of at most three rows gives no bills |
| `Excel.BillDatesAreDateShaped` | pyenergir/client.py:128-138 | every bill's start and end are `DDDD-DD-DD` |
| `Excel.FirstBadRowFailsSheet` | pyenergir/client.py:124-131 | the first data row that fails makes the whole sheet fail with its error; no partial list is returned |
| `Excel.RowBillReadsTwoCells` | pyenergir/client.py:125-126 | a bill depends only on cells 2 and 5 of its row |
| `Html.Find` | pyenergir/client.py:62 | `find` gives the first matching element in document order, or None when none matches |
| `Html.FindAll` | pyenergir/client.py:107 | `find_all` (here and at line 155) lists exactly the elements under the given nodes that match, and never more elements than there are under them |
| `Html.FindAllKeepsDocumentOrder` | pyenergir/client.py:155 | `find_all` over siblings lists the matches under the first sibling before those under the next |
| `Scraping.LoginPageUrl` | pyenergir/client.py:62-69 | no `form#target` is one error; no action is another; otherwise the URL is the home URL, "/" and the first such form's action |
| `Scraping.LoginPageUrlKeepsAction` | pyenergir/client.py:69 | the action can be read back from the URL after the home URL and the slash |
| `Scraping.CheckLogin` | pyenergir/client.py:83-88 | login is accepted exactly when the status is 302 and Location is the profile URL; otherwise it is rejected |
| `Scraping.Put` | pyenergir/client.py:112 | dict assignment: an existing key keeps its place, a new key is appended, the pair is present, and every entry under another key is unchanged |
| `Scraping.ContractTable` | pyenergir/client.py:107-114 | a missing table or body is reported before any row is read; a table that is returned never repeats a contract id |
| `Scraping.GetContract` | pyenergir/client.py:107-114 | the row loop returns the contract table of the profile page, or the first error it meets |
| `Scraping.ScanRowsFails` | pyenergir/client.py:107-112 | the table fails exactly when some row has no id, or a kept row has no `link-<id>` anchor |
| `Scraping.ScanRowsKeys` | pyenergir/client.py:109-112 | the keys are the contract ids of the kept rows |
| `Scraping.ScanRowsUnique` | pyenergir/client.py:112 | no contract id appears twice |
| `Scraping.ContractTableKeys` | pyenergir/client.py:107-112 | each discovered id is a kept row's id without its first 5 characters, and every such id is discovered |
| `Scraping.ConfiguredContractOnly` | pyenergir/client.py:111-112 | with a configured contract, at most one contract is found, and it is that one |
| `Scraping.ScanRowsInTableOrder` | pyenergir/client.py:107-112 | with no configured contract and distinct ids, the ids come out in row order |
| `Scraping.ContractTableInRowOrder` | pyenergir/client.py:107-114 | the same for the whole profile page |
| `Scraping.BuildExportArgs` | pyenergir/client.py:154-159 | the append loop builds exactly `ExportArgs` |
| `Scraping.ExportArgsLayout` | pyenergir/client.py:154-159 | the checkbox (name, value) pairs in document order, then ("noCompte", id), then ("method", "telechargerExcel") |
| `Client.Discover` | pyenergir/client.py:179-185 | a missing login form or action fails first; contracts are found only after a login answered by 302 and the profile URL, and they are the contract table of the profile page, with no id repeated |
| `Client.StoreBills` | pyenergir/client.py:188-194 | the loop never removes a key, and adds only ids of discovered contracts |
| `Client.GetExcelHistoricData` | pyenergir/client.py:142-162 | the export is fetched with the arguments built from the contract's history page; a page without the container or its form fails |
| `Client.StoreBillsComplete` | pyenergir/client.py:188-194 | a completed loop stores every discovered contract's own bills under its id |
| `Client.StoreBillsKeepsOthers` | pyenergir/client.py:188-194 | keys that are not discovered contracts keep their old values; no key is removed |
| `Client.StoreBillsStops` | pyenergir/client.py:188-194 | a stopped loop reports the error of a discovered contract whose predecessors all decoded |
| `Client.StoreBillsStopPrefix` | pyenergir/client.py:188-194 | a loop whose first failure is at contract k reports that contract's error, and ends with what the completed loop over the contracts before k stores |
| `Client.StoreBillsStopsAt` | pyenergir/client.py:188-194 | after a stop at contract k, every contract before k holds its own bills, and every other key is present, absent or valued as before the loop |
| `Client.EnergirClient.constructor` | pyenergir/client.py:33-43 | stores the credentials, the configured contract as a list of at most one, an empty `data`, the session and the timeout |
| `Client.EnergirClient.GetHttpSession` | pyenergir/client.py:46-49 | afterwards a session is held; nothing else changes |
| `Client.EnergirClient.GetLoginPage` | pyenergir/client.py:52-70 | returns `LoginPageUrl` of the login page |
| `Client.EnergirClient.PostLoginPage` | pyenergir/client.py:73-92 | posts the credentials to the login URL; passes exactly on status 302 with Location equal to the profile URL |
| `Client.EnergirClient.FetchData` | pyenergir/client.py:176-195 | a failure before the loop leaves `data` unchanged; otherwise `data` is the loop result over the discovered contracts in order; other fields are unchanged |
| `Client.EnergirClient.StoreContracts` | pyenergir/client.py:188-194 | the loop downloads, decodes and stores each contract in order, stopping at the first failure, exactly as `StoreBills` with the portal's bills; other fields are unchanged |
| `Client.EnergirClient.GetData` | pyenergir/client.py:197-203 | None gives all of `data`; a known contract gives the one-entry map of its bills; an unknown one is `ContractNotFound` |
| `Client.EnergirClient.GetContracts` | pyenergir/client.py:205-207 | a contract is listed exactly when `get_data` for it succeeds |
| `Client.GetDataOneIsPartOfAll` | pyenergir/client.py:197-207 | one contract's result is the restriction of the whole result to it |

## Left out

- Network I/O: the GET and POST calls, timeouts, `OSError` handling and `close_session`. The pages, the login reply and the export are inputs, through `Portal`. A transport failure is not modelled.
- Coroutine scheduling (`asyncio.coroutine`, `yield from`): the model runs the steps in sequence, in the order `fetch_data` issues them.
- HTML parsing: a page is a tree of elements with attributes and classes. Text nodes, parser recovery and attributes with several values other than `class` are not modelled.
- Spreadsheet parsing by xlrd: the export is given as the workbook xlrd reads (`Xls`). Cells are strings or numbers. A short row stands for a sheet with too few columns.
- The numeric value of the consumption: a number cell is an opaque `real`, passed through without checks.
- Request encoding: query-string encoding of the arguments, and a `None` name or value inside them, are not modelled.
- Header lookup: the Location header is given as already looked up; case-insensitive header matching is not modelled.
- `_load_contract_page`: `fetch_data` never calls it, and it only issues a GET.
- The link `href` values of the contract table are kept, but nothing is proved about which one a repeated id keeps, since `fetch_data` never uses them.
- `ENERGIR_TIMEZONE`, `MAIN_URL`: unused configuration.
- Order and identity of `_data`: `data` is a map, so the insertion order of the Python dict is lost (client.py:41, 194). That order is the order in which `get_data()` returns the contracts, and pyenergir/output.py prints them in it. `get_data(None)` also returns the client's own dict, not a copy, so a caller can change it (client.py:200); the model returns a value.
- pyenergir/__main__.py, pyenergir/output.py, setup.py: command-line handling, output formatting and packaging are not part of this model.
- Client.EnergirClient.GetHttpSession: a session is a flag held by the client, not an aiohttp object; what the session does is not modelled.
