# SRFax client — a Dafny model

This project models the Python client library for the SRFax fax service (`srfax/srfax.py`).
The client works in three stages:

- It checks and rewrites destination numbers. A number must be in E.164 shape. A number in the North American Numbering Plan (NANP) loses only its `+`. Any other number gets the international prefix `011` in place of its `+`.
- It builds the flat parameter mapping of each of the six service calls: queue, status, inbox, outbox, retrieve and delete. Any parameter still unset (`None`) is refused, and attachments are read, Base64-encoded and numbered from 1.
- It sends the call through a SOAP transport and processes the reply. A reply without `Status` or `Result` is refused. The wrapper types of the transport are converted to plain strings and dicts. The outcome is a result or an `SRFaxError`, with an error code and a retry hint.

The model has seven modules, one file each:

| file | module | models |
|---|---|---|
| `values.dfy` | `Values` | Python and transport values (`None`, `bool`, `str`, the transport's text wrapper, `dict`, the transport's object, `list`), Python truthiness, and the JSON round trip as `Erase` |
| `errors.dfy` | `Errors` | `SRFaxError` with its error code, message, cause and retry flag; the built-in exceptions the client raises; `Result` and `Outcome` |
| `numbers.dfy` | `FaxNumbers` | `is_e164_number`, `is_nanp_number`, `verify_fax_numbers` |
| `files.dfy` | `Files` | `os.path.basename` and `get_file_content`, over a file system given as a map |
| `params.dfy` | `Parameters` | `verify_parameters`, the `or` fallback, the numbered file parameters, `'|'.join` |
| `response.dfy` | `Response` | `process_response`, with Python's `in`, `[]` and `len` on each kind of value |
| `client.dfy` | `SRFax` | the client and its six calls, and `process_request`, with the service given as a function from request to reply |

Raised exceptions are returned as `Err(e)` values.
The remote service is a parameter `endpoint: Request -> Reply`.
A reply is either a body or a transport failure.
The file system is a parameter: a map from path to entry, plus the encoding function applied to a file's bytes.

## Model

| member | source | states |
|---|---|---|
| Values.Erase | srfax/srfax.py:203 | converting a value drops every transport wrapper (the result is plain) and keeps the value truthy or falsy as it was |
| Values.ErasePlain | srfax/srfax.py:203 | a value that holds no transport wrapper comes back from the JSON round trip unchanged |
| Values.EraseIdempotent | srfax/srfax.py:203 | converting an already converted value changes nothing |
| FaxNumbers.MatchesE164Pattern | srfax/srfax.py:19 | the destination check `RE_E164.match` as Python runs it: a `+`, then 7 to 15 digits, then the end of the string or a single final newline |
| FaxNumbers.IsE164 | srfax/srfax.py:233-239 | the E.164 shape the check is meant to accept: a `+` followed by 7 to 15 digits and nothing else |
| FaxNumbers.IsNanp | srfax/srfax.py:241-247 | a number is in the North American Numbering Plan when it starts with `+1` |
| FaxNumbers.Dialable | srfax/srfax.py:258-266 | the dialling form of a valid number is all digits; for a NANP number it is the number without its `+` and starts with 1; for any other number it is `011` followed by the digits after the `+` |
| FaxNumbers.DialableRoundTrip | srfax/srfax.py:263-266 | the number can always be recovered from its dialling form, so two valid numbers never share one |
| FaxNumbers.InternationalExample | srfax/srfax.py:265-266 | `+442071838750` is valid and is dialled as `011442071838750` |
| FaxNumbers.NanpExample | srfax/srfax.py:263-264 | `+12025550123` is valid and is dialled as `12025550123`, keeping the country code 1 |
| FaxNumbers.DialableOfDigits | srfax/srfax.py:258-266 | `+` and 7 to 15 digits is a valid number; it is dialled as the digits alone when they start with 1, and as `011` and the digits otherwise |
| FaxNumbers.RewriteFaxNumbers | srfax/srfax.py:258-266 | the loop rewrites the list in place: it succeeds exactly when every number is in E.164 shape, and then each entry holds its dialling form; otherwise it stops at the first invalid number with a `TypeError` naming it, with the entries before it already rewritten and the rest untouched |
| FaxNumbers.RewrittenListFailsAgain | srfax/srfax.py:258-266 | checking a list that was already rewritten fails at its first entry, because a dialling form has no `+` |
| FaxNumbers.RetryWithRewrittenListFails | srfax/srfax.py:258-268 | `["+12025550123"]` is rewritten to `["12025550123"]`, and a second check of that list fails at its first entry |
| FaxNumbers.DialAll | srfax/srfax.py:258-266 | the dialling forms of a list of valid numbers keep its length and order, one per number |
| FaxNumbers.VerifyFaxNumbers | srfax/srfax.py:249-268 | a single number is treated as a one-element list; the call succeeds exactly when every number is in E.164 shape, and then returns the dialling forms in order; otherwise it fails with a `TypeError` naming the first invalid number; the rewrite is done on a copy, so the caller's list is unchanged |
| FaxNumbers.PatternAsWritten | srfax/srfax.py:19 | the E.164 pattern, as Python applies it, accepts exactly the E.164 numbers and those numbers followed by one newline |
| FaxNumbers.TrailingNewlineAccepted | srfax/srfax.py:19 | `"+12025550123\n"` passes the pattern but is not an E.164 number |
| FaxNumbers.TrailingNewlineReachesService | srfax/srfax.py:263-264 | under the pattern as written, that number is a NANP number whose dialling form holds a non-digit |
| Files.BasenameIsLastSegment | srfax/srfax.py:89 | the base name is the longest suffix of the path without a `/`: the whole path when it has none, empty when the path ends in `/` |
| Files.GetFileContent | srfax/srfax.py:270-292 | reading succeeds exactly for an existing, non-empty regular file, and returns its encoded content; a missing path fails with `File does not exists: <path>`; every failure is a plain `Exception` |
| Parameters.Or | srfax/srfax.py:79-83 | Python's `a or b` on an optional string: the result is one of the two; it is `a` when `a` is a non-empty string; it is a non-empty string exactly when one of the two is |
| Parameters.VerifyParameters | srfax/srfax.py:225-231 | passes exactly when no value is `None`; otherwise fails with `<key> not set` for some key whose value is `None` |
| Parameters.DecimalInjective | srfax/srfax.py:89-90 | different file numbers have different decimal forms |
| Parameters.FileKeysDistinct | srfax/srfax.py:89-90 | `sFileName_j` and `sFileName_k` coincide only when j = k, likewise the content keys, and a name key is never a content key |
| Parameters.FileParamKeys | srfax/srfax.py:87-90 | adding N attachments adds exactly the keys `sFileName_1..N` and `sFileContent_1..N` |
| Parameters.FileParamKept | srfax/srfax.py:87-90 | a key the attachments do not use keeps its value |
| Parameters.FileParamAdded | srfax/srfax.py:87-90 | the k-th attachment is sent as `sFileName_k` and `sFileContent_k`, whatever attachments follow it |
| Parameters.FileParamValues | srfax/srfax.py:87-90 | every attachment k = 1..N has its name and content under number k, and no other key is added or changed |
| Parameters.AddAttachments | srfax/srfax.py:87-90 | the loop succeeds exactly when every path can be read; it then gives the mapping with each file's base name and content under its number; otherwise it fails with the error of the first unreadable path |
| Parameters.FileNameParamKeys | srfax/srfax.py:166-167 | numbering N file names adds exactly the keys `sFileName_1..N` |
| Parameters.FileNameKept | srfax/srfax.py:166-167 | a key that is not a file name key keeps its value |
| Parameters.FileNameAdded | srfax/srfax.py:166-167 | the k-th name is sent as `sFileName_k`, whatever names follow it |
| Parameters.AddFileNames | srfax/srfax.py:166-167 | the loop numbers the file names in order: the k-th name is added as `sFileName_k`, as `WithFileNames` defines it |
| Parameters.SplitJoin | srfax/srfax.py:67 | splitting the `|`-joined field at `|` gives back the pieces when no piece holds a `|` |
| Parameters.JoinHasSeparator | srfax/srfax.py:66-67 | the joined field holds the separator exactly when there are two or more separator-free pieces |
| Response.UnwrapSingle | srfax/srfax.py:105-106 | a result of length one is replaced by its first element: the element of a one-element list, the only field of a one-field transport object, the string itself for a one-character string, and a `KeyError` for a one-key dict; a result of any other length, a string such as the retrieved file's content among them, is returned unchanged; a result without a length, such as `True`, gives `len`'s `TypeError` |
| Response.StrOf | srfax/srfax.py:200-205 | Python 2 `str()` of a text wrapper succeeds exactly when the text is ASCII, and then gives the same text as a plain string; otherwise it raises `UnicodeEncodeError` |
| Response.CoerceItemMeaning | srfax/srfax.py:196-203 | converting an element succeeds exactly when it is falsy, an ASCII text wrapper, or a record of serialisable values; a falsy element is kept; any other converted element is a plain string or dict with the same data |
| Response.CoerceRecordMeaning | srfax/srfax.py:203 | a non-empty record converts exactly when its values are serialisable, and then gives the plain dict with the same data |
| Response.CoerceAllMeaning | srfax/srfax.py:196-203 | converting a list succeeds exactly when every element converts; the output keeps length and order; a failure is the error of the first element that does not convert |
| Response.CoerceAllFirstError | srfax/srfax.py:195-209 | the list conversion stops at the first element that cannot be converted, with that element's error |
| Response.CoerceAllElementwise | srfax/srfax.py:196-203 | when each element converts, the list conversion is the element-by-element conversion |
| Response.NormaliseItems | srfax/srfax.py:196-203 | the in-place loop over a list result yields the list conversion, or the error of its first failing element |
| Response.NormaliseResult | srfax/srfax.py:194-209 | the result is converted as a list element by element, an ASCII text wrapper becomes a string, and a conversion failure, a non-ASCII text among them, becomes an invalid response worth retrying |
| Response.Located | srfax/srfax.py:187-194 | an empty reply is refused as an empty response; a non-empty reply of any kind, text and list replies included, whose `in` tests miss `Status` or `Result` is refused as missing fields; a reply on which `in` raises, such as `True`, gives that `TypeError`, and a non-record reply that passes both tests fails at the lookup with a `TypeError`; the lookup succeeds exactly on a record reply holding both, and gives its `Result` |
| Response.ErrorMessage | srfax/srfax.py:213-218 | the message is the result itself unless the result is a one-element list; the `ErrorCode` lookup on that element can fail only with a `TypeError`, `KeyError` or `AttributeError` |
| Response.Classify | srfax/srfax.py:213-223 | the library error it raises is a failed request that is not worth retrying; a value is returned only when the status is `Success`, and it is never `None` |
| Response.Processed | srfax/srfax.py:183-223 | a reply yields a value only when it holds `Status` and `Result`, its status is `Success`, and the value is not `None` |
| Response.ProcessResponse | srfax/srfax.py:183-223 | processing a reply performs the shape checks, then the conversion, then the status check, in that order |
| Response.MalformedReply | srfax/srfax.py:187-194 | an empty reply, or a non-empty reply of any kind whose `in` tests miss `Status` or `Result`, is an invalid response worth retrying; a reply on which `in` raises, or a non-record reply that passes both tests, gives a bare `TypeError` instead |
| Response.TextReplyRefused | srfax/srfax.py:189-192 | the text reply `Busy` holds no `Status`, so it is an invalid response worth retrying |
| Response.RejectedReply | srfax/srfax.py:194-218 | a status other than `Success` is a failed request that is not worth retrying; its message is the `ErrorCode` of a one-element result of a record that has one, and the whole result when that record, an empty transport record included, has none or the result is not a one-element list; a one-element result whose element is not a record gives the whole result when the `ErrorCode` test finds nothing, and a bare `TypeError` when the test itself fails; a conversion failure takes precedence and is an invalid response worth retrying |
| Response.RejectedWithNoneElement | srfax/srfax.py:213-218 | a rejected reply whose result is `[None]` raises `TypeError`, not an `SRFaxError` |
| Response.SuccessfulReply | srfax/srfax.py:194-223 | with status `Success`, a `None` result gives `True`, an ASCII text result gives its string, a non-ASCII text result is an invalid response worth retrying whose cause is the `UnicodeEncodeError`, and a list result gives a list of the same length: falsy elements are unchanged and every other element is plain with the same data; the list fails only when an element cannot be converted, and then it is an invalid response worth retrying whose cause is that element's error; any other result, a record, a plain string or a boolean, is returned as it is |
| Response.NonAsciiResultRejected | srfax/srfax.py:204-209 | a successful reply whose result is the text `Café` is an invalid response |
| Response.RetryMeansInvalidResponse | srfax/srfax.py:183-223 | of the library's own errors from a reply, exactly the invalid responses are worth retrying |
| Response.TextRecordConverts | srfax/srfax.py:203 | a transport record holding one text field converts to a plain dict holding the plain string |
| Response.RejectedWithErrorCode | srfax/srfax.py:213-218 | a failed reply carrying one record with `ErrorCode` `E001` raises a failed-request error whose message is `E001` |
| SRFax.NewClient | srfax/srfax.py:50-59 | the credentials and defaults are kept as given; an absent or empty URL selects the public service |
| SRFax.DestinationField | srfax/srfax.py:65-67 | the destination field holds a `|` exactly when there is more than one destination; splitting it gives the dialling forms in order, and each reads back as the number given |
| SRFax.QueueParams | srfax/srfax.py:76-84 | the queue mapping before the files holds exactly the seven fixed keys, and its account code is always set |
| SRFax.QueueFaxKeys | srfax/srfax.py:76-90 | the queue mapping holds the seven fixed keys and the name and content keys of each file, and nothing else |
| SRFax.QueueFaxDestinations | srfax/srfax.py:65-67 | the fax type is BROADCAST exactly when there is more than one destination, which is exactly when the destination field holds a `|` |
| SRFax.QueueFaxDefaults | srfax/srfax.py:79-83 | caller ID and sender email fall back to the client's defaults; the account code falls back to the client's and then to `''`, so it is never unset |
| SRFax.QueueFaxFiles | srfax/srfax.py:87-90 | the k-th file is sent as its base name and its encoded content |
| SRFax.QueueParamsSet | srfax/srfax.py:76-85 | the queue mapping has an unset value exactly when a credential, the caller ID or the sender email is unset after the fallbacks |
| SRFax.BuildQueueFax | srfax/srfax.py:61-90 | the checks run in the source's order: numbers, then the five-file limit, then unset parameters, then file reading; each failure is the first one met; success means all four hold, and the request is the mapping with the attachments |
| SRFax.DeleteKeys | srfax/srfax.py:159-167 | the delete mapping holds the credentials, the folder and `sFileName_1..N`, and nothing else |
| SRFax.DeleteCredentials | srfax/srfax.py:159-167 | the credentials and the folder pass through the numbering unchanged |
| SRFax.DeleteFileNames | srfax/srfax.py:166-167 | the k-th name is sent as `sFileName_k` |
| SRFax.BuildDeleteFax | srfax/srfax.py:149-168 | more than five names is refused before anything else; an unset credential or folder is refused next; otherwise the request is the mapping with the names numbered in order |
| SRFax.BuildRequest | srfax/srfax.py:97-102 | a call is built exactly when no value of its mapping is unset, and is then sent unchanged |
| SRFax.ProcessRequest | srfax/srfax.py:171-181 | a transport failure becomes a failed request that is worth retrying, with the failure as its cause; a reply is processed |
| SRFax.QueueFax | srfax/srfax.py:61-92 | nothing is sent unless the numbers, the file limit, the parameters and the files all pass, and each failing check gives its own error; once all pass, a transport failure gives a transport error and a reply gives the processed reply to the queue request |
| SRFax.GetFaxStatus | srfax/srfax.py:94-107 | an unset fax id is refused; otherwise the processed reply is returned, with a one-element result unwrapped |
| SRFax.GetFaxInbox | srfax/srfax.py:109-119 | an unset period is refused; otherwise the processed reply to the inbox request is returned |
| SRFax.GetFaxOutbox | srfax/srfax.py:121-131 | an unset period is refused; otherwise the processed reply to the outbox request is returned |
| SRFax.RetrieveFax | srfax/srfax.py:133-147 | an unset parameter is refused; otherwise the processed reply is returned, with a one-element result unwrapped |
| SRFax.DeleteFax | srfax/srfax.py:149-169 | more than five names is refused; otherwise the processed reply to the delete request is returned |

## Left out

- Transport: the SOAP client, its WSDL download and `getattr` on its service are not modelled. The service is the `endpoint` parameter.
- Logging is left out. This covers the exception log when an `SRFaxError` is created and the debug log of the result.
- The `IOError` that `open` can raise is not modelled. The file system has no unreadable-file state; a directory is its own entry kind.
- Base64 is the `encode` function of the file system. Its output format is not modelled.
- Type checks on arguments are not modelled. These are `basestring`, `str` and `list`, and the `TypeError` raised for another argument type. A destination or file argument is one string or a list of strings (`OneOrMany`).
- `delete_fax` tests `str` where the other calls test `basestring`. The model does not tell `unicode` from `str`, so the difference is left out.
- `str()` on a destination that is not a string is not modelled. Destinations are strings.
- `dict()` of a list of two-element pairs is not modelled. Every list element that is itself a list is modelled as the conversion failure Python raises for other lists.
- Python's `re` `\d` is taken as the ASCII digits. The library targets Python 2 `str`, where this holds.
- `verify_parameters` visits keys in the dictionary's order, which the model leaves unspecified. `Parameters.VerifyParameters` names some unset key, not a particular one.
- `get_fax_inbox` and `get_fax_outbox` default `period` to `'ALL'`. Dafny methods here take every argument, so the caller passes it.
- The error code and the retry flag are read straight from the error's fields. The getters `get_error_code`, `get_cause` and `get_retry` have no separate members.
- Files.Basename: only the POSIX separator `/` is modelled. On Windows `os.path.basename` also splits at `\` and after a drive letter's `:`.
- Values.Value: a reply holds only `None`, booleans, strings, records and lists. Numbers and dates from the transport are not modelled, and neither is the `TypeError` that `json.dumps` raises on a date.
- FaxNumbers.VerifyFaxNumbers: a Python 2 `unicode` destination with a non-ASCII character makes `str()` raise `UnicodeEncodeError`. The model reports it as not in E.164 shape instead.
- SRFax.QueueFax: the destinations are taken by value, so the caller's list keeps its numbers. The source rewrites that list in place; `FaxNumbers.RewriteFaxNumbers` models the rewrite on an array, and the Findings table says what it breaks.
- `len()` and `[0]` on a reply value follow Python for lists, strings and dicts. A transport object of length one is modelled as giving its one field, as the transport's object indexing does.

## Findings

| source | as written | input that shows it | evidently intended | confidence | as-written member | corrected member |
|---|---|---|---|---|---|---|
| srfax/srfax.py:19 | `RE_E164 = re.compile(r'^\+\d{7,15}$')` is used with `re.match`; Python's `$` also matches just before a newline that ends the string | `"+12025550123\n"` passes the check, and its dialling form `"12025550123\n"` is sent to the service | only `+` and 7 to 15 digits, with nothing after them (`\Z` or `re.fullmatch`) | not executed | FaxNumbers.MatchesE164Pattern, FaxNumbers.TrailingNewlineAccepted | FaxNumbers.VerifyFaxNumbers |
| srfax/srfax.py:258-268 | `verify_fax_numbers` writes each dialling form back into the caller's list with `to_fax_number[i] = ...`, and `queue_fax` passes the caller's list | `numbers = ['+12025550123']`; `queue_fax(numbers, ...)` leaves `numbers == ['12025550123']`, so calling `queue_fax(numbers, ...)` again, for example to retry, fails with `Number not in E.164 format: 12025550123` | the dialling forms go into a new list and the caller's list is left alone | not executed | FaxNumbers.RewriteFaxNumbers, FaxNumbers.RetryWithRewrittenListFails | FaxNumbers.VerifyFaxNumbers |
