/**
 * The module-level constants of pyenergir/client.py and the ways a call
 * into the client can fail.
 */
module Energir {

  const Host := "https://cybercompte.energir.com"
  const HomeUrl := Host + "/Cybercompte"
  const LoginUrl := Host + "/Cybercompte/login.do"
  const MainUrl := Host + "/Cybercompte/accueil.do"
  const ProfileUrl := Host + "/Cybercompte/accueil.do"
  const DataUrl := Host + "/Cybercompte/historiqueFacture.do"

  /** Default timeout, in seconds, handed to the HTTP session. */
  const RequestsTimeout := 30

  /** HTTP status "302 Found", the only status a successful login returns. */
  const Found := 302

  /**
   * One constructor per exception the modelled client raises; the
   * transport errors (`OSError`, re-raised as PyEnergirError) are not
   * modelled. NoLoginForm, NoLoginUrl, LoginRejected and ContractNotFound
   * are the client's own PyEnergirError. UnreadableWorkbook is the error
   * xlrd's `open_workbook` raises on bytes that are not a workbook. The
   * others are the AttributeError, TypeError or IndexError that Python
   * raises when the page or the sheet does not have the expected shape.
   */
  datatype Error =
    | NoLoginForm                          // no form with id "target"
    | NoLoginUrl                           // that form has no action attribute
    | LoginRejected                        // bad status code or Location header
    | NoContractTable                      // no table with id "tableComptes"
    | NoTableBody                          // that table has no tbody
    | RowWithoutId                         // a contract row has no id attribute
    | NoContractLink(contract: string)     // a kept row has no link-<id> anchor
    | NoDynamicContent                     // no div with id "dynamicContent"
    | NoBillForm                           // that div holds no form
    | UnreadableWorkbook                   // the export is not a workbook
    | NoSheet                              // the workbook has no sheet
    | CellOutOfRange(row: nat, column: nat)
    | PeriodNotText(row: nat)              // the period cell is not a string
    | PeriodNotFound(row: nat)             // the period regex does not match
    | ContractNotFound(contract: string)   // get_data for an unknown contract
}
