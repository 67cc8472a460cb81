# 3X-API-Library request core in Dafny

This project models the request-composition core of the PHP library
3X-API-Library and proves properties of it. The model has four parts.

- **`ParamsBag`** (`params_bag.dfy`, module `Params`) is the store a request is built from.
  - `login`, `password` and `domain` each have a field of their own.
  - Every other authorisation pair goes into `authParams`.
  - GET and POST parameters are ordered string-keyed dictionaries.
  - The store also holds a proxy and one staged file.
  - It is a class whose methods update its fields.
  - Its invariant states that keys are unique and that `authParams` never holds a reserved name.
- **`Request`** (`request.dfy`, module `Requests`) holds the flags and the request logic.
  - The flag setters and `request` are methods of a class. `request` sets options on a cURL handle one by one.
  - `prepareHeaders` and `prepareEndpoint` are pure functions of the flags and the stored parameters.
  - The options a request sets are specified by the function `CurlOptions`. Lemmas state the header order, the endpoint, the body choice, the POST method, the proxy and the credentials.
  - The network round trip is a `Reply` value handed to the request: the `curl_exec` result or `false`, the HTTP code, the error text and the error number.
  - A staged file that no longer opens gives `curl_setopt` a `false` stream, which raises a TypeError. The request then stops: the options set so far stay on the handle, and no code or response is recorded.
- **`AbstractModel`** (`model.dfy`, module `Models`) is a guarded view of a `values` array.
  - It has a nested `custom_fields` section.
  - `offsetSet`, `offsetUnset` and the custom-field appends are methods of a class, each proved against a function on the old `values`.
  - `offsetExists`, the setter-less read and `checkId` are functions.
- **`Format`** (`format.dfy`) holds the snake_case to CamelCase helpers and digit extraction. Each helper is written out as the composition of the PHP calls it makes.

The supporting modules model the PHP semantics the core relies on:

- `Php` (`php.dfy`): values, array keys with PHP's decimal-string key normalisation, integer-numeric strings, `isset`, `$a[] =` and `(string)`/`(bool)` casts.
- `Assoc` (`assoc.dfy`): ordered dictionaries, and `array_merge` with string keys.
- `Query` (`query.dfy`): `http_build_query` with `urlencode`.
- `Curl` (`curl.dfy`): the cURL options and a handle that records them.
- `Wrappers` (`wrappers.dfy`): `Option`, `Result` and the exceptions.

The file system (`is_file`, `fopen`, `filesize`) is a `FileSystem` value passed to the operations that touch it. `json_encode`, `json_decode` and the `DateTime` conversion are functions held in a `Codec` value.

With `authIsGet` set, the query is built from `array_merge($get, $authExtras)` (src/Request/Request.php:403). On a key clash the authorisation value therefore replaces the GET value (`Requests.AuthOverridesGet`).

## Model

| member | source | states |
|---|---|---|
| Params.ParamsBag.constructor | src/Request/ParamsBag.php:30-73 | every store starts empty: no auth pairs, null login, password, domain and proxy, empty GET and POST, no file |
| Params.ParamsBag.AddProxy | src/Request/ParamsBag.php:82-87 | only the proxy changes; afterwards `hasProxy` holds iff the proxy is a string, and `getProxy` returns it |
| Params.ParamsBag.AddAuth | src/Request/ParamsBag.php:98-110 | `login`, `password` and `domain` go to their own fields and any other name to `authParams`; nothing else changes; `authParams` never gains a reserved name; `getAuth(name)` then returns the value and every other name reads as before |
| Params.ParamsBag.GetAuth | src/Request/ParamsBag.php:120-133 | a reserved name reads its own field; any other name reads `authParams[name]`, or null when that is missing or null |
| Params.ParamsBag.GetAuthAll | src/Request/ParamsBag.php:120-135 | `getAuth()` without a name is `authParams`, which has distinct keys and never a reserved name |
| Params.ParamsBag.AddGetAll | src/Request/ParamsBag.php:145-148 | `addGet($array)` is `array_merge`; as a map, the new values override the old ones and untouched keys stay; nothing but the GET parameters changes |
| Params.ParamsBag.AddGet | src/Request/ParamsBag.php:145-151 | `addGet($name, $value)` sets exactly that key; every other GET key and the rest of the store stay as they were |
| Params.ParamsBag.GetGet | src/Request/ParamsBag.php:164-168 | a stored name reads back its stored value; a missing name reads as null |
| Params.ParamsBag.HasGet | src/Request/ParamsBag.php:179-182 | true iff the GET parameters are not empty |
| Params.ParamsBag.ClearGet | src/Request/ParamsBag.php:190-195 | only the GET parameters are emptied, and `hasGet` is false afterwards |
| Params.ParamsBag.AddPostAll | src/Request/ParamsBag.php:205-208 | `addPost($array)` is `array_merge` into the POST parameters, as a map override; GET is untouched |
| Params.ParamsBag.AddPost | src/Request/ParamsBag.php:205-211 | `addPost($name, $value)` sets exactly that POST key; nothing else changes |
| Params.ParamsBag.GetPost | src/Request/ParamsBag.php:224-228 | a stored POST name reads back its stored value; a missing name reads as null |
| Params.ParamsBag.HasPost | src/Request/ParamsBag.php:239-242 | true iff the POST parameters are not empty |
| Params.ParamsBag.ClearPost | src/Request/ParamsBag.php:250-255 | only the POST parameters are emptied, and `hasPost` is false afterwards |
| Params.ParamsBag.HasProxy | src/Request/ParamsBag.php:274-277 | true iff the proxy is a string |
| Params.ParamsBag.SetFile | src/Request/ParamsBag.php:288-299 | succeeds iff the path is a regular file that opens for reading; a missing file and an unreadable one throw their own messages and leave the store unchanged; on success the file is staged and `hasFile` holds |
| Params.ParamsBag.GetFileParams | src/Request/ParamsBag.php:317-324 | `false` iff no file is staged; otherwise the staged name with its `filesize` |
| Params.ParamsBag.GetFileSize | src/Request/ParamsBag.php:332-335 | a size iff a staged path is a regular file, and then its size |
| Params.ParamsBag.OpenFile | src/Request/ParamsBag.php:343-347 | with a staged path, the stream `fopen` gives is kept and returned; without one, `fopen` raises a ValueError for the empty path |
| Params.ParamsBag.HasFile | src/Request/ParamsBag.php:366-369 | true iff a file is staged |
| Assoc.MergeIsOverride | src/Request/ParamsBag.php:148 | `array_merge` with string keys, seen as maps, is override with the right-hand side winning |
| Assoc.FindMerge | src/Request/Request.php:403 | in `array_merge($a, $b)` each key of `$b` takes `$b`'s value and every other key keeps `$a`'s |
| Curl.CurlHandle.Open | src/Request/Request.php:432 | opening the handle keeps the options set so far |
| Curl.CurlHandle.SetOpt | src/Request/Request.php:434 | each `curl_setopt` appends its option and nothing else |
| Curl.CurlHandle.Reset | src/Request/Request.php:481 | `reset` clears every option |
| Requests.Request.constructor | src/Request/Request.php:37-138 | the flag defaults (parse response and transfer, https and json on; the others off), no last code or response, no extra headers; a given handle is reused and a missing one is created fresh |
| Requests.Request.SetDebug | src/Request/Request.php:147-155 | only `debug` changes, to the truth value of the argument |
| Requests.Request.SetJson | src/Request/Request.php:164-169 | only `json` changes, to the truth value of the argument |
| Requests.Request.SetHttps | src/Request/Request.php:178-183 | only `https` changes, to the truth value of the argument |
| Requests.Request.SetHttpAuth | src/Request/Request.php:195-200 | only `httpAuth` changes, to the truth value of the argument |
| Requests.Request.SetGetAuth | src/Request/Request.php:209-214 | only `authIsGet` changes, to the truth value of the argument |
| Requests.Request.SetCookies | src/Request/Request.php:223-228 | only `cookies` changes, to the truth value of the argument |
| Requests.Request.SetParseResponse | src/Request/Request.php:237-242 | only `parseResponse` changes, to the truth value of the argument |
| Requests.Request.SetParseTransfer | src/Request/Request.php:251-256 | only `parseTransfer` changes, to the truth value of the argument |
| Requests.Request.SetHeaders | src/Request/Request.php:274-279 | the extra headers are replaced, not added to; no flag changes |
| Requests.PrepareHeaders | src/Request/Request.php:361-382 | fails iff a date string is rejected by `DateTime`; otherwise keep-alive comes first, the JSON type is present iff `json`, `IF-MODIFIED-SINCE` is present iff `$modified` is not null (the decimal integer for an int, the RFC 1123 date for a string) and is the last generated header, and the extra headers follow in order |
| Requests.GeneratedHeaders | src/Request/Request.php:363-375 | the generated headers: keep-alive first, the JSON type iff `json`, and only the last one may be a date header |
| Requests.CollectAuthExtras | src/Request/Request.php:394-402 | the `foreach` copies every auth pair except `domain`, in order |
| Requests.Request.BuildEndpoint | src/Request/Request.php:392-407 | `prepareEndpoint` on the current flags and parameters is the endpoint function `PrepareEndpoint` |
| Requests.QueryFromGetOnly | src/Request/Request.php:394-403 | without `authIsGet` the query parameters are the GET parameters alone |
| Requests.AuthOverridesGet | src/Request/Request.php:395-403 | with `authIsGet` every auth key but `domain` enters the query with the auth value, replacing a GET value of the same name; the other keys keep their GET value |
| Requests.AuthExtrasOfBag | src/Request/Request.php:396-400 | for a bag's auth pairs, which never hold `domain`, the `foreach` copies all of them |
| Requests.EndpointQuery | src/Request/Request.php:403-406 | the endpoint holds `?` iff the query is not empty, and the text after it is the query (for a domain and path without `?`) |
| Requests.EndpointScheme | src/Request/Request.php:404-406 | the endpoint starts with `https://` iff `https` is set, and with `http://` otherwise |
| Requests.SingleGetEndpoint | src/Request/Request.php:403-406 | one plain GET parameter gives `scheme://domain/url?name=value` |
| Requests.AuthQueryOrder | src/Request/Request.php:395-406 | an auth pair replaces the GET value of its name in place, and a new auth name is appended after it |
| Requests.PlainPairQuery | src/Request/Request.php:403 | a pair of plain strings is written as `name=value` |
| Requests.PlainPairs | src/Request/Request.php:403 | a leading plain pair is written first, then `&` and the rest of the query |
| Query.BuildQueryEmpty | src/Request/Request.php:403-405 | the query is empty iff no parameter holds a non-null scalar; null entries are omitted |
| Query.UrlEncodeUnreserved | src/Request/Request.php:403 | unreserved characters are not encoded |
| Requests.Request.ConfigureTransfer | src/Request/Request.php:434-442 | the URL, return-transfer and TLS options, and both cookie options iff `cookies` |
| Requests.Request.ConfigureCredentials | src/Request/Request.php:444-447 | `login:password` is set iff `httpAuth` |
| Requests.Request.ConfigureHead | src/Request/Request.php:434-451 | the options up to the encoding are `HeadOptions` |
| Requests.Request.ConfigureBody | src/Request/Request.php:453-462 | with POST parameters, POST and the body: `json_encode` under `json`, form encoding otherwise; nothing without them |
| Requests.Request.ConfigureFront | src/Request/Request.php:434-462 | the options up to the body are the head options then the body options |
| Requests.Request.ConfigureFile | src/Request/Request.php:466-471 | with a staged file: POST, then the stream `openFile` gives, which is kept in the bag; if `fopen` fails, the TypeError of `curl_setopt` right after POST, with no stream and no size set; otherwise the stream and the file size |
| Requests.Request.ConfigureTail | src/Request/Request.php:463-474 | binary transfer iff not `parseTransfer`, then the file options, then the proxy iff it is a string and the staged file (if any) opened; the TypeError iff the staged file does not open |
| Requests.Request.Configure | src/Request/Request.php:432-474 | every `curl_setopt` of `request`, in order, is `CurlOptions` of the flags, endpoint, headers and parameters; the TypeError iff the staged file does not open, with the options set before it left on the handle |
| Requests.HeadFacts | src/Request/Request.php:434-451 | the head options start with the URL, set no body, POST or proxy, set the credentials iff `httpAuth`, and always set the headers |
| Requests.TailFacts | src/Request/Request.php:463-474 | the tail options set POST iff a file is staged, the proxy iff it is a string and the staged file (if any) opens, and no proxy but that one |
| Requests.TailStream | src/Request/Request.php:466-474 | a staged file that opens is set as the upload stream; for one that does not, POST is the last option set and no upload stream is set |
| Requests.BodySelection | src/Request/Request.php:453-462 | exactly one body is sent when there are POST parameters (the JSON or the form encoding, by `json`), and none otherwise |
| Requests.PostMethod | src/Request/Request.php:453-471 | the request is a POST iff there are POST parameters or a staged file |
| Requests.OptionsShape | src/Request/Request.php:432-474 | the URL is set first and only once; the proxy is set iff it is a string and the staged file (if any) opens, and only to it; credentials are set iff `httpAuth`; the headers are always set |
| Requests.Outcome | src/Request/Request.php:495-503 | a NetworkException with the error and its number iff the result is `false` and the error is non-empty; otherwise the decoded body under `parseResponse`, else the raw result |
| Requests.Request.Transfer | src/Request/Request.php:432-503 | the options set; if the staged file does not open, the TypeError, with the options left on the open handle and the last code and response unchanged; otherwise the handle reset, the last code and response recorded, and the outcome; flags and parameters unchanged |
| Requests.Request.Execute | src/Request/Request.php:421-504 | if `prepareHeaders` throws, nothing changes and nothing is sent; otherwise the options of the plan are set and the file stream is kept; if the staged file does not open, the TypeError, with those options left on the handle and nothing recorded; otherwise the handle is reset, the reply's code and result are recorded and the outcome returned |
| Requests.Request.GetRequest | src/Request/Request.php:325-332 | non-empty parameters are merged into GET and nothing else in the bag changes; the request then runs on the merged parameters as `Execute` states: a `prepareHeaders` exception sends and records nothing, a staged file that does not open gives the TypeError and records nothing, and otherwise the handle is reset, the code and response recorded and the outcome returned; flags and extra headers stay |
| Requests.Request.PostRequest | src/Request/Request.php:344-351 | parameters are merged into POST and nothing else in the bag changes; the request is made with a null `$modified`, so it never fails in `prepareHeaders`; a staged file that does not open gives the TypeError and records nothing, and otherwise the handle is reset, the code and response recorded and the outcome returned; flags and extra headers stay |
| Format.LowerCamelCase | src/Helpers/Format.php:35-38 | `lowerCamelCase` is `upperCamelCase` with its first character lower-cased |
| Format.UpperCamelCaseIsCamelCase | src/Helpers/Format.php:48-51 | `upperCamelCase` drops `_` and spaces and upper-cases exactly the first character and those after `_` or a `ucwords` delimiter |
| Format.UpperCamelCaseShape | src/Helpers/Format.php:48-51 | the result has no `_` and no space, and its length is the input length less the `_` and space characters |
| Format.UpperCamelCaseWords | src/Helpers/Format.php:48-51 | two words joined by `_` become both words capitalised and run together |
| Format.LowerCamelCaseWords | src/Helpers/Format.php:35-38 | for a lower-case first word, the first word is kept and the second capitalised |
| Format.SnakeCaseUpper | src/Helpers/Format.php:41-51 | `snake_case` becomes `SnakeCase` |
| Format.SnakeCaseLower | src/Helpers/Format.php:28-38 | `snake_case` becomes `snakeCase` |
| Format.CamelCaseUndeclared | src/Helpers/Format.php:35-60 | neither `camelCase` nor `CamelCase` names a method of `Format`, even case-insensitively |
| Format.OnlyNumbers | src/Helpers/Format.php:60-63 | the result is made of ASCII digits only |
| Format.OnlyNumbersSelects | src/Helpers/Format.php:60-63 | the result is an in-order selection of the input that holds every digit of it |
| Format.OnlyNumbersOfDigits | src/Helpers/Format.php:60-63 | a string of digits is left as it is |
| Format.OnlyNumbersIdempotent | src/Helpers/Format.php:60-63 | extracting digits twice is extracting them once |
| Format.OnlyNumbersConcat | src/Helpers/Format.php:60-63 | digit extraction works piecewise over concatenation |
| Php.KeyOf | src/Models/AbstractModel.php:57 | an offset becomes an integer key iff it is a canonical decimal in PHP's integer range, and the key prints back as the offset |
| Php.KeyOfInjective | src/Models/AbstractModel.php:57 | two different offsets never share a key |
| Models.StringOffset | src/Models/AbstractModel.php:75 | `isset($s[$o])` on a string holds iff the offset is an integer-numeric string (leading zeros, a sign and surrounding whitespace allowed) within the string's length in characters, and then it denotes that position, negative offsets counting from the end |
| Php.KeyIsIntegerNumeric | src/Models/AbstractModel.php:57 | every offset that becomes an integer array key is also an integer-numeric string denoting that key |
| Php.PaddedNumerals | src/Models/AbstractModel.php:57 | `"01"` and `" 1"` denote 1 as numeric strings but stay string keys; `"1.0"` is not an integer-numeric string |
| Php.PaddedNegative | src/Models/AbstractModel.php:57 | `" -1"` denotes minus one as a numeric string but stays a string key |
| Models.PaddedStringOffset | src/Models/AbstractModel.php:57 | a string custom section answers the offsets `"01"` and `" -1"`, while an array holding key 1 does not answer `"01"` |
| Models.Model.constructor | src/Models/AbstractModel.php:28-36 | a model starts with the `fields` its subclass declares and an empty `values` array |
| Models.WritableSection | src/Models/AbstractModel.php:172 | writing into a missing, null or `false` slot starts a new array, an array is written in place, and any other scalar fails |
| Models.TestModelOffsets | test/Models/TestModel.php:21-24 | on the positional field list `["id", "name"]`, `id` and `name` are not offsets but `0` and `1` are; setting `id` throws and setting `0` changes nothing |
| Models.SetOffsetGuard | src/Models/AbstractModel.php:90-94 | `offsetSet` throws its ModelException exactly for the offsets `offsetExists` rejects |
| Models.Model.OffsetSet | src/Models/AbstractModel.php:90-104 | the exception iff the offset does not exist; otherwise the write the setter-less path makes, and no change on failure; a written non-null value reads back |
| Models.SetThenRead | src/Models/AbstractModel.php:100-103 | a non-null value written to a listed field, or to a listed custom field not shadowed by a top-level value, is what `offsetGet` reads back |
| Models.SetOffsetFrame | src/Models/AbstractModel.php:98-104 | no top-level entry changes except the offset's own and the custom section; an existing but unlisted offset changes nothing |
| Models.PositionalFieldsNeverWrite | src/Models/AbstractModel.php:92-104 | with a positional list of names, `offsetSet` either throws or changes nothing, since it tests keys first and values second |
| Models.Model.OffsetUnset | src/Models/AbstractModel.php:113-120 | the effect of `UnsetOffset` on `values`, and no change on failure |
| Models.UnsetOffsetEffect | src/Models/AbstractModel.php:113-120 | removes the top-level value if set, else the custom value if set, else nothing; no other entry changes |
| Models.ListOf | src/Models/AbstractModel.php:169 | appending values one by one gives the list of them with keys 0, 1, ... |
| Models.BuildEntry | src/Models/AbstractModel.php:155-167 | one entry: `value`, then `enum` and `subtype` unless they are `false` |
| Models.EntryKeys | src/Models/AbstractModel.php:157-167 | every entry has `value`, and has `enum` or `subtype` iff that is not `false` |
| Models.BuildValues | src/Models/AbstractModel.php:154-170 | the loop builds one entry per element of the given pairs, in order |
| Models.ScalarCustomField | src/Models/AbstractModel.php:148-170 | a non-array value gives exactly one entry, holding the value and the enum unless it is `false` |
| Models.ArrayCustomField | src/Models/AbstractModel.php:150-170 | an array value gives one entry per element, in the array's order |
| Models.Model.Append | src/Models/AbstractModel.php:172 | the record is appended to the custom section, and nothing changes on failure |
| Models.AppendKeepsRecords | src/Models/AbstractModel.php:172 | appending succeeds iff the section is missing, null, `false` or an array; the earlier records stay in order, the new one takes the next index, and nothing outside the section changes |
| Models.Model.AddCustomField | src/Models/AbstractModel.php:141-175 | one record with the id and the built entries is appended |
| Models.Model.AddCustomMultiField | src/Models/AbstractModel.php:184-200 | one record with the id and the values is appended |
| Models.MultiFieldValues | src/Models/AbstractModel.php:191-197 | an array of values is stored as given, and anything else is wrapped in a one-element list |
| Models.CheckId | src/Models/AbstractModel.php:209-216 | the result is `true` or the exception `Id must be integer and positive` |
| Models.CheckIdAccepts | src/Models/AbstractModel.php:209-216 | accepts exactly the whole numbers from 1 on, and `true`, which PHP compares as equal to 1 and not below it |
| Models.OffsetGetAsWrittenFails | src/Models/AbstractModel.php:69 | as written, `offsetGet` fails on every offset with an undefined-method error |
| Models.OffsetSetAsWrittenFails | src/Models/AbstractModel.php:92-96 | as written, `offsetSet` throws for a missing offset and fails with an undefined-method error for every existing one |
| Models.OffsetSetCounterexample | src/Models/AbstractModel.php:92-103 | for a field listed under its own name, the setter-less path writes it while the code as written fails |

## Left out

- Logging is left out: the `Logger` and every `logger->debug` call. This includes the log-level switch in `setDebug`, which names a `LogLevel` class the file does not import.
- The `$debug` argument of `request`, `getRequest` and `postRequest` is left out. It only chooses what is logged.
- The cURL transport is not modelled. `CurlHandle.php` is not part of this model. The handle is reduced to the options set on it. `curl_exec`, `curl_getinfo`, `curl_error` and `curl_errno` are the `Reply` given to the request.
- The cookie file is `cookie.txt` in the directory of `Request.php`. The model keeps the file name only.
- `json_encode`, `json_decode` and `DateTime::format(RFC1123)` are uninterpreted functions in `Codec`. The `false` that `json_encode` can return is left out.
- Floats and objects are not PHP values in this model, except for float ids given to `checkId`.
- Params.ParamsBag.AddGet: names are strings. Integer-like keys, and `array_merge` renumbering integer keys, are left out. The same goes for `AddGetAll`, `AddPost` and `AddPostAll`.
- Params.ParamsBag.AddGetAll: the TypeError of `addGet($array, $value)` with a non-null value is left out. The model has one method per form of the call.
- Params.ParamsBag.AddAuth: names are strings, so PHP's loose `==` on them is plain equality. Non-string names are left out. So are integer-like names: PHP stores `"123"` as the integer key 123 in `authParams`. With `authIsGet`, the `array_merge` of src/Request/Request.php:403 then renumbers that key, so the query carries `0=...` where the model keeps `123=...`.
- `closeFile` is left out. Streams are values and are never released. The stream `request` opens is not closed by the source either.
- `getParameters` and `getCurlHandle` are left out. They are plain accessors.
- The getter and setter dispatch of `offsetGet` and `offsetSet` (`method_exists` on a built name) is left out, as is the model's inheritance from `Request`. The setter-less paths are modelled. See "Findings".
- `__toString` (the class name) is left out. `__get` and `__set` only forward to `offsetGet` and `offsetSet`. `getValues` is the plain read `Models.Model.GetValues`.
- Models.LooseEquals: `in_array` compares loosely. Null, booleans, integers and integer-numeric strings are compared as PHP 8 does, so `"01" == 1` and `"01" == " 1"` hold. Float-like numeric strings (`"1.0"`, `"1e0"`) and integer strings beyond PHP's range are compared by their text in the model. PHP compares them as numbers, so `"1.0" == 1` holds in PHP and not in the model.
- Models.StringOffset: string offsets count characters, while PHP counts bytes. The model agrees with PHP only on ASCII sections. For a section holding `"é"` (two bytes in UTF-8), PHP finds offset `"1"` and reads the single byte `"\xC3"` at `"0"`; the model finds no offset `"1"` and reads `"é"` at `"0"`. `NestedRead` has the same limit.
- Models.SetOffset: a write into a `custom_fields` section that holds a string is a string-offset write in PHP. The model reports it as a failure and does not compute the new string.
- Models.CheckId: string ids, and floats outside PHP's integer range, are left out.
- Models.CheckId: `checkId` throws `new Exception` inside namespace `_3xAPI\Models`, which names `_3xAPI\Models\Exception`. The autoloader would load that class from `src/Models/Exception.php` (or the same path under `test/` or `example/`). No such file is among the files modelled. If the class does not exist, PHP raises a "Class not found" Error at that `new`, and the message `Id must be integer and positive` is never thrown. The model assumes the class exists and records an exception with that message.
- Requests.PrepareHeaders: an integer `$modified` is printed for any size. PHP's 64-bit range is left out.
- The dynamic model dispatch of `AbstractClient` is not part of this model. Neither are the class loaders, nor the exception classes beyond their messages.

## Findings

| source | as written | input that shows it | evidently intended | confidence | as-written member | corrected member |
|---|---|---|---|---|---|---|
| src/Models/AbstractModel.php:69 | `offsetGet` builds the getter name with `Format::CamelCase`, a method `Format` does not declare under any case | any offset, e.g. reading `$model['name']` | read the getter-less value (`values[o]`, else `values["custom_fields"][o]`, else null) | not executed | Models.OffsetGetAsWrittenFails | Models.SetThenRead |
| src/Models/AbstractModel.php:96 | after the existence check, `offsetSet` builds the setter name with `Format::camelCase`, which `Format` does not declare | fields `["name" => "name"]`, then `$model['name'] = 'x'` | write `values[o]` when `o` is a listed field, else the listed custom field | not executed | Models.OffsetSetCounterexample | Models.Model.OffsetSet |
