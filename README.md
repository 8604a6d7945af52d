# Employee payroll dashboard — verified model of its logic

The dashboard is a React front end for employee records and payroll. Almost
all of it is rendering and HTTP. This project models the part that computes
something, and proves what that logic promises:

- **Salary breakup** (`SalaryUtils`). A gross amount is split into Basic 40%,
  HRA 20%, DA 10% and Travel 5%, each rounded half up. Special Allowance takes
  the remainder, so the five add up to the gross amount exactly.
- **Salary page** (`SalaryDetails`). This covers the earnings table (five
  standard rows, then one row per custom allowance), the amount check and the
  request that "Save" sends, the increment column, and the rows of the PDF
  pay slip.
- **Employee code** (`StringUtils`). The part before the first hyphen,
  upper-cased, or "N/A".
- **Roster CSV export** (`ExportCsv`). The header, one line per employee, and
  the empty-list guard.
- **Stores** (`DeductionSlice`, `EmployeeSlice`, `AuthSlice`). These are
  classes whose reducer methods update fields in place. The employee fetch
  query URL sits with its store. The browser's stored token is a field of the
  auth store.
- **Charts** (`Charts`). The salary bars, the role tally loop and the role
  distribution built from it, and the palette choice.

`Text` holds the string operations the code relies on: split, join,
upper-case, decimal rendering and reading numerals. `Base` holds `Option`;
`Entities` holds the roster employee record.

Amounts are integers (rupees). The one exception is the number typed into the
salary page, which `parseFloat` reads; it is modelled as an exact `real`.

## Model

| member | source | states |
|---|---|---|
| Text.FirstSegment | src/utils/stringUtils.js:4 | `split(sep)[0]` is a prefix of the input, contains no separator, and is followed by a separator unless it is the whole input |
| Text.FirstSegmentUnique | src/utils/stringUtils.js:4 | those three facts determine the first segment uniquely |
| Text.Split | src/utils/stringUtils.js:4 | `split(sep)` gives at least one piece, the first piece is a prefix of the text, and no piece holds the separator |
| Text.Join | src/utils/exportToCSV.js:16 | `join(sep)` starts with the first piece, and when there are two or more pieces the separator follows it |
| Text.ToUpper | src/utils/stringUtils.js:4 | `toUpperCase()` keeps the length and maps each character on its own: ASCII lower-case letters to upper case, every other character unchanged |
| Text.SplitJoin | src/utils/exportToCSV.js:16 | splitting the `join` of pieces on the same separator gives the pieces back, when no piece holds the separator |
| Text.ParseDecimal | src/pages/SalaryDetails.jsx:71 | text accepted as a number is a well-formed numeral: non-empty, made only of digits, signs and points, a sign only in front, at most one point and at least one digit (ParseWhole and ParseFraction show that every such numeral is accepted, and give its value) |
| Text.ParseWhole | src/pages/SalaryDetails.jsx:71-78 | digits with an optional sign, leading zeros included, read as their value, negated under '-' |
| Text.ParseFraction | src/pages/SalaryDetails.jsx:71-78 | a numeral of digits, a point and digits (not both digit runs empty), with no sign, '+' or '-', reads as whole + frac / 10^|frac|, negated under '-' |
| Text.ParseSigned | src/pages/SalaryDetails.jsx:71-78 | a leading '+' keeps the value of the unsigned numeral after it, and a leading '-' negates it |
| Text.DecimalRoundTrip | src/pages/SalaryDetails.jsx:78 | reading back the decimal rendering of any integer gives that integer |
| Text.IntToString | src/utils/exportToCSV.js:12 | an integer renders as a non-empty run of digits with at most a leading minus, which is there exactly for a negative number; there are no leading zeros ("0" only for zero, never "-0") |
| SalaryUtils.RoundHalfUp | src/utils/salaryUtils.js:2-5 | `Math.round(n/d)` lies within half a unit of n/d, and an exact half rounds up |
| SalaryUtils.RoundHalfUpUnique | src/utils/salaryUtils.js:2-5 | only one integer meets that bound, so the rounding is fully determined |
| SalaryUtils.Percent | src/utils/salaryUtils.js:2-5 | the rounded percentage is within half a unit of pct% of the total |
| SalaryUtils.CalculateBreakup | src/utils/salaryUtils.js:1-16 | there are exactly five components, with fixed names and colours in fixed order. The first four are the nearest integers (half up) to 40/20/10/5% of the total. The five add up to the total exactly. Special is within 2 units of 25% |
| SalaryUtils.BreakupIsNearest | src/utils/salaryUtils.js:2-5 | any integer within half a unit of the percentage IS the component, so the breakup has no other possible value |
| SalaryUtils.BreakupNonNegative | src/utils/salaryUtils.js:2-6 | a non-negative total gives five non-negative components, Special included |
| SalaryUtils.BreakupOfZero | src/utils/salaryUtils.js:2-6 | a total of 0 gives five zeros |
| SalaryUtils.BreakupOfOneLakh | src/utils/salaryUtils.js:2-6 | a total of 100000 gives 40000, 20000, 10000, 5000 and 25000 |
| StringUtils.FormatEmpId | src/utils/stringUtils.js:1-5 | a missing or empty code gives "N/A". Otherwise the result is the upper-cased prefix before the first hyphen: no longer than the input, hyphen-free, and followed in the input by a hyphen unless it is the whole input |
| StringUtils.FormatWithoutHyphen | src/utils/stringUtils.js:4 | a code without a hyphen comes back whole, upper-cased |
| StringUtils.FormatUuid | src/utils/stringUtils.js:3-4 | a UUID-shaped code gives its first 8 characters, upper-cased |
| ExportCsv.JoinedDate | src/utils/exportToCSV.js:12 | the joined date is the prefix of `createdAt` before the first 'T' and contains no 'T'; when it is shorter than `createdAt`, the character after it is that 'T' |
| ExportCsv.RowFields | src/utils/exportToCSV.js:12 | six cells in header order: the id as is, the name, email and role between double quotes with nothing escaped, a salary cell that reads back as the salary, and the date part of `createdAt` before its 'T' |
| ExportCsv.CsvRow | src/utils/exportToCSV.js:12 | the line is exactly id, then the quoted name, email and role, then the salary and the joined date, separated by commas, with nothing escaped: a comma or quote inside a field goes into the line as it is |
| ExportCsv.CsvBody | src/utils/exportToCSV.js:8-16 | the CSV text starts with the header, is just the header for no employees, and otherwise has a line break right after the header; CsvLines gives its full line structure |
| ExportCsv.CsvRows | src/utils/exportToCSV.js:11-13 | one line per employee, in list order |
| ExportCsv.DownloadCsv | src/utils/exportToCSV.js:1-16 | there is no content exactly when the list is missing or empty. Otherwise the content is the data-URI prefix followed by the CSV text |
| ExportCsv.CsvLines | src/utils/exportToCSV.js:8-16 | with no line break inside a field, the text splits into the fixed header, then each employee's line in order: the list length plus one lines |
| ExportCsv.CsvRowCells | src/utils/exportToCSV.js:12 | with no comma inside a field, a line splits into id, quoted name, quoted email, quoted role, salary and joined date |
| ExportCsv.UnescapedQuotesCollide | src/utils/exportToCSV.js:12 | quotes are not escaped: a name holding `","` gives the same line as a different employee |
| SalaryDetails.TableRows | src/pages/SalaryDetails.jsx:48-55 | no employee gives no rows. Otherwise there are 5 + the number of allowances rows (a missing list counts as none). First come basic, hra, da, travel and special, typed standard with the record's values. Then one custom row per allowance in stored order |
| SalaryDetails.TableShowsAllowances | src/pages/SalaryDetails.jsx:54 | reading the custom rows back gives exactly the stored allowance list |
| SalaryDetails.AmountValue | src/pages/SalaryDetails.jsx:71 | empty text and a prefilled 0 are refused. A prefilled non-zero value is taken as is, and any other typed text is read exactly as ParseDecimal reads it, so malformed numerals are refused |
| SalaryDetails.MalformedAmountRefused | src/pages/SalaryDetails.jsx:71 | typed text with a sign after the start, a second point or no digit ("1-2", "1.2.3", "-", ".") is refused when adding and when editing |
| SalaryDetails.TypedWholeAmount | src/pages/SalaryDetails.jsx:71-78 | any whole amount typed in decimal, "0" included, is accepted and read as itself |
| SalaryDetails.TypedFractionAmount | src/pages/SalaryDetails.jsx:71-78 | an amount typed with a fraction is accepted and read as its exact decimal value |
| SalaryDetails.TypedGarbageRefused | src/pages/SalaryDetails.jsx:71 | text holding any character that is not a digit, sign or point is refused |
| SalaryDetails.HandleSave | src/pages/SalaryDetails.jsx:70-81 | the save is refused, with no request, exactly when the amount is invalid. Adding posts the form unchanged. Editing sends a payload whose only key is the selected row's key, mapped to the parsed amount |
| SalaryDetails.Increments | src/pages/SalaryDetails.jsx:210-217 | one increment per history line, in order; previous salary plus increment is the new salary |
| SalaryDetails.PaySlipOf | src/pages/SalaryDetails.jsx:118-126 | the title is "Pay Slip: " plus the name. The head is Component/Amount. The body has one (label, amount) per table row, in table order. The single foot row is "Total CTC" with the recorded salary |
| SalaryDetails.PaySlipLayout | src/pages/SalaryDetails.jsx:121-126 | the body is the five standard components, then each allowance's label and amount in order, and the foot is the recorded salary |
| DeductionSlice.WithoutId | src/features/deductions/deductionSlice.js:34 | an item is kept exactly when it was present and has another id |
| DeductionSlice.WithoutIdAppend | src/features/deductions/deductionSlice.js:34 | filtering distributes over concatenation, so kept items keep their relative order |
| DeductionSlice.WithoutIdLength | src/features/deductions/deductionSlice.js:34 | the list shrinks by exactly the number of items carrying the id |
| DeductionSlice.WithoutAbsentId | src/features/deductions/deductionSlice.js:34 | removing an id nobody carries leaves the list unchanged |
| DeductionSlice.WithoutIdIdempotent | src/features/deductions/deductionSlice.js:34 | removing the same id twice is the same as removing it once |
| DeductionSlice.DeductionState.constructor | src/features/deductions/deductionSlice.js:21 | the store starts with no items and not loading |
| DeductionSlice.DeductionState.FetchPending | src/features/deductions/deductionSlice.js:25 | loading is set and the items are unchanged |
| DeductionSlice.DeductionState.FetchRejected | src/features/deductions/deductionSlice.js:23-35 | the slice has no case for a failed fetch, so items and loading stay as they are; after a failed fetch loading stays set |
| DeductionSlice.DeductionState.FetchFulfilled | src/features/deductions/deductionSlice.js:26-29 | the payload replaces the items and loading is cleared |
| DeductionSlice.DeductionState.AddFulfilled | src/features/deductions/deductionSlice.js:30-32 | the new items are the payload in front of the old items; loading is untouched |
| DeductionSlice.DeductionState.RemoveFulfilled | src/features/deductions/deductionSlice.js:33-35 | the new items are the old ones without that id, and none carries it; loading is untouched |
| EmployeeSlice.EmployeeState.constructor | src/features/employees/employeeSlice.js:43-49 | the store starts with an empty list, not loading, 0 pages, page 1 and zeroed stats with no highest-paid employee |
| EmployeeSlice.EmployeeState.Dispatch | src/features/employees/employeeSlice.js:50-62 | pending sets only loading. Fulfilled clears loading and copies the list and paging, leaving stats alone. Rejected only clears loading. Stats-fulfilled replaces only the stats. Add, update and delete change nothing |
| EmployeeSlice.OrDefault | src/features/employees/employeeSlice.js:9 | a given argument is kept and an absent one takes its default |
| EmployeeSlice.QueryParams | src/features/employees/employeeSlice.js:9-11 | five parameters named page, limit, search, sort and role in that order; the page value reads back as the page (1 by default), limit is always 5, and search, sort and role carry their argument or the default "", "createdAt_DESC" and "" |
| EmployeeSlice.QueryUrl | src/features/employees/employeeSlice.js:9-11 | the request URL is exactly `/employees?page=…&limit=5&search=…&sort=…&role=…` with the page (default 1), search (default ""), sort (default "createdAt_DESC") and role (default "") put in as they are, without encoding |
| EmployeeSlice.DefaultParams | src/features/employees/employeeSlice.js:9-11 | with no arguments the parameters are page=1, limit=5, search=, sort=createdAt_DESC and role= |
| EmployeeSlice.QueryRoundTrip | src/features/employees/employeeSlice.js:11 | when no value holds '&', the query splits into page, limit, search, sort and role in that order |
| EmployeeSlice.AmpersandInSearch | src/features/employees/employeeSlice.js:11 | values are not encoded: a search holding one '&' is cut there, and the text after it reads as a sixth parameter between search and sort |
| EmployeeSlice.LimitAlwaysFive | src/features/employees/employeeSlice.js:11 | whatever the arguments, the second query parameter is `limit=5` |
| AuthSlice.TokenOnLoad | src/features/auth/authSlice.js:18 | the starting token is the stored one when it is present and not empty, otherwise none |
| AuthSlice.StoredForm | src/features/auth/authSlice.js:43 | `setItem` keeps a token as its text and a missing token as the text "undefined"; the stored text is empty only for an empty token |
| AuthSlice.LoginTokenSurvivesReload | src/features/auth/authSlice.js:40-43 | a token written by login is read back by the next page load exactly when it is present and not empty |
| AuthSlice.AuthState.constructor | src/features/auth/authSlice.js:17-21 | the token comes from storage, loading is false, there is no error, and the store is in sync with storage |
| AuthSlice.AuthState.Logout | src/features/auth/authSlice.js:27-30 | the token is cleared in the store and in storage; loading and error are unchanged; the store is in sync |
| AuthSlice.AuthState.LoginPending | src/features/auth/authSlice.js:34-37 | loading is set and the error is cleared; the token and storage are unchanged |
| AuthSlice.AuthState.LoginFulfilled | src/features/auth/authSlice.js:38-44 | loading is cleared, and the token and the stored copy become the payload token. The store is in sync exactly when that token is a non-empty string |
| AuthSlice.AuthState.LoginRejected | src/features/auth/authSlice.js:45-48 | loading is cleared and the error becomes the payload; the token and storage are unchanged |
| Charts.SalaryData | src/components/Charts.jsx:27-30 | one bar per employee, in list order, with name and salary copied |
| Charts.Distinct | src/components/Charts.jsx:38 | the keys are exactly the roles that occur, each once |
| Charts.CountStep | src/components/Charts.jsx:32-36 | Distinct and Occurrences grow as one loop step does: a role joins the key order on its first appearance only, and its count goes up by one and no other count changes |
| Charts.CountRoles | src/components/Charts.jsx:32-36 | after the loop, the keys are the roles in order of first appearance. A role has a count exactly when some employee has it, and its count is the number of employees with it |
| Charts.RoleData | src/components/Charts.jsx:38-41 | one entry per key, in key order, with that key's count |
| Charts.BuildRoleData | src/components/Charts.jsx:32-41 | the loop followed by the mapping gives the role distribution of the list |
| Charts.DistributionCoversRoles | src/components/Charts.jsx:32-41 | the role distribution names every employee's role, no role twice, and every value is at least 1 |
| Charts.RoleTotal | src/components/Charts.jsx:32-41 | the role values add up to the number of employees |
| Charts.Palette | src/components/Charts.jsx:23-24 | the dark theme gets the dark palette and any other theme the light one; both have 6 colours |
| Charts.CellColor | src/components/Charts.jsx:70 | `index % COLORS.length` always picks a palette colour and cycles with period 6 |

## Left out

- HTTP calls (every async thunk body and page handler) are network I/O. Only the payload each reducer receives is modelled. The three-way parallel fetch of the salary page is left out as concurrency.
- React component state, rendering, routing, modals, toasts, `window.confirm` and the debounced search are presentation and timing.
- The DOM part of `downloadCSV` is browser I/O: the `alert`, `encodeURI`, and creating and clicking the download link.
- jsPDF/autoTable layout, recharts drawing, `toLocaleString` and date formatting are foreign libraries with locale-dependent output. Pay slip amounts are kept as numbers, without the "Rs. " text or digit grouping.
- Login, registration and form pages hold no logic beyond field comparisons. The ID shown inline on the salary page and in the details modal repeats `formatEmpId`'s split and upper-casing (src/pages/SalaryDetails.jsx:158, src/components/EmployeeDetailsModal.jsx:83), with its own fallback for a missing code: the salary page shows nothing, and the modal puts "EMP-" before the first segment or, without a code, before the record id.
- Salary crediting, payslip e-mail and payroll history are bare requests; their logic lives on the server. This code base has no payroll projection (net pay, payout percentage), no month/year filter on deductions and no duplicate-credit guard. The displayed "Total CTC" is the recorded salary, not a sum of rows. None of these is modelled.
- SalaryUtils.CalculateBreakup: works on exact integer arithmetic rather than binary floating point. A product such as `t * 0.05` that lands just below a half in floating point is rounded as an exact half here, and fractional salaries are not modelled.
- Text.ToUpper: upper-cases ASCII letters only. Unicode case mapping, which can change a string's length, is not modelled, so StringUtils.FormatEmpId inherits this limit.
- Text.IntToString: prints every digit of an unbounded integer. JavaScript prints integral numbers of 1e21 and above in exponent form, and integers beyond 2^53 are not exact. This affects the salary cell of the CSV and the `page=` parameter of the employee query; rupee amounts and page numbers stay far below that range.
- Text.ParseDecimal: accepts only a sign, digits and one point. Surrounding whitespace, exponents, hexadecimal, "Infinity" and number inputs that are NaN are not modelled.
- ExportCsv.CsvLines: holds only when no field contains a line break, because the export does not escape them. Non-integer salaries and the rendering of a missing `createdAt` (which makes the source throw) are not modelled.
- SalaryDetails.HandleSave: the add path posts the form as it stands and the label is not checked, as in the source. Amounts are parsed as exact rationals rather than floats.
- AuthSlice.AuthState.LoginRejected: the rejection payload is modelled as a string; the server may send any JSON value.
- Charts.CountRoles: keys are kept in insertion order. JavaScript lists integer-like keys first in ascending order; role names are assumed not to look like integers. The tally object also inherits from `Object.prototype`: a role named "constructor" or "toString" would start from an inherited function and give a string count, and "__proto__" never becomes a key. Role names are assumed not to be prototype property names; in practice they come from the fixed job list in src/components/EmployeeForm.jsx:6-66.
