# Asaas API client: a verified model

This project models the core of an Asaas payment API client written in PHP.
The `Tools` class holds a configuration map: access token, production or
sandbox, debug, API version, upload mode and decoding. It offers one method
per API operation: webhooks, balance and statement, accounts and documents,
customers, payments, anticipations, installments, subscriptions, bills,
transfers, banks and bank accounts. Each operation does the same things in
turn:

- It validates its input. Every failed check adds a message, and all of them
  are thrown at once, joined by "\r\n", before any request is made.
- It restricts the body to a whitelist of fields.
- For list operations, it rewrites the query filters: the caller's `limit` is
  dropped or kept, and `limit=100` is forced.
- It sends the request through `get`/`post`/`put`/`delete`, which funnel into
  `execute`. That method builds the URL, the query string and the result
  envelope.
- It maps the reply's status to a returned envelope or an exception.

The project also models the string formatters of the helpers file: CPF, CNPJ,
phone and postal code, and the two date-format converters.

Layout:

- `strings.dfy`: `implode`, `explode` and reversal, with their round trips.
- `php_values.dfy`: PHP values and arrays, with `isset`, `empty`, whitelisting, assignment, string conversion and decoded JSON.
- `url_encoding.dfy`: `urlencode`.
- `engine.dfy`: the configuration, headers, URL, query string, payload and envelope. Together these form `Call`, which is what one request returns.
- `rules.dfy`: every operation's checks, as tables of rules in source order with their messages, plus the whitelists.
- `filters.dfy`: the query-filter rewriting of the list operations.
- `responses.dfy`: the status tables and the error messages built from the API's error list.
- `operations.dfy`: each operation as a plan (checks, request, status table), and `Perform`, the outcome of a plan.
- `guarantees.dfy`: what the operations promise, proved about their plans.
- `tools.dfy`: the `Tools` class. It has the setters, the header builder, the `execute` loop and the request primitives, plus one method per operation. Each operation method is proved equal to performing its plan.
- `helpers.dfy`: the formatters and the date converters.

The network and JSON decoding are parameters. `Net.send` is the server's
answer to a request, and `Net.jsonDecode` stands for `json_decode`. Every
result is stated for all servers.

## Model

| member | source | states |
|---|---|---|
| AsaasTools.Tools.constructor | src/Tools.php:26-45 | A new client holds the given token and production flag (production by default), version 3, upload off, decode on, debug off, and satisfies the version invariant. |
| AsaasTools.Tools.SetProduction | src/Tools.php:55-58 | Reading the flag back gives the value set; every other setting is unchanged; the version invariant is kept. |
| AsaasTools.Tools.SetUpload | src/Tools.php:68-71 | Reading the flag back gives the value set; every other setting is unchanged; the version invariant is kept. |
| AsaasTools.Tools.SetDecode | src/Tools.php:81-84 | Reading the flag back gives the value set; every other setting is unchanged; the version invariant is kept. |
| AsaasTools.Tools.SetToken | src/Tools.php:94-97 | Reading the token back gives the value set; every other setting is unchanged; the version invariant is kept. |
| AsaasTools.Tools.SetVersion | src/Tools.php:107-112 | 2 and 3 are taken and read back; any other version leaves every setting as it was, so only supported versions are ever configured. |
| AsaasTools.Tools.GetToken | src/Tools.php:120-123 | The token read back is the one configured, and it is what the authorization header carries. |
| AsaasTools.Tools.GetProduction | src/Tools.php:132-135 | The flag read back is the configured one, and it holds exactly when every request URL starts with the production root. |
| AsaasTools.Tools.GetUpload | src/Tools.php:144-147 | The flag read back holds exactly when the content-type header is the multipart one. |
| AsaasTools.Tools.GetDecode | src/Tools.php:156-159 | The flag read back holds exactly when a 200 reply is returned decoded. |
| AsaasTools.Tools.GetVersion | src/Tools.php:168-170 | The version read back is the configured one, and it is 2 or 3 on a valid client. |
| AsaasTools.Tools.SetDebug | src/Tools.php:182-185 | Only the debug flag changes; the version invariant is kept. |
| AsaasTools.Tools.DefaultHeaders | src/Tools.php:193-206 | The header list built step by step equals `Headers` of the configuration: the token header, then the multipart content type exactly in upload mode, JSON otherwise. |
| AsaasTools.Tools.JoinFilters | src/Tools.php:2358-2366 | The loop over the query filters fails exactly when a surviving filter's name or value cannot be URL-encoded; otherwise it yields the encoded pair of every surviving filter, in input order. |
| AsaasTools.Tools.BuildUrl | src/Tools.php:2342-2371 | The URL built step by step is `Url` of the configuration: root, version and normalised path, then the query string; it fails exactly when a surviving filter is refused. |
| AsaasTools.Tools.Execute | src/Tools.php:2340-2385 | The request and envelope built imperatively equal `Call` of the current configuration: the normalised path under the sandbox or production root, the query string, the headers, the payload and the decode/debug policy. |
| AsaasTools.Tools.Get | src/Tools.php:2216-2229 | A GET with no body, default headers followed by the caller's, through `Execute`. |
| AsaasTools.Tools.Post | src/Tools.php:2240-2256 | A POST whose body is JSON, or form fields in upload mode, through `Execute`. |
| AsaasTools.Tools.Put | src/Tools.php:2267-2283 | A PUT whose body is JSON, or form fields in upload mode, through `Execute`. |
| AsaasTools.Tools.Delete | src/Tools.php:2293-2305 | A DELETE with no body, through `Execute`. |
| AsaasTools.Tools.Issue | src/Tools.php:2216-2305 | Sends a step through the primitive for its verb; the outcome is `Call` of that verb. |
| AsaasTools.Tools.Validate | src/Tools.php:553-565 | The checks run one by one, each failure's messages appended in turn; the final list is exactly `CheckAll` of the rule table, in table order. |
| AsaasTools.Tools.RunChecked | src/Tools.php:553-586 | Validation comes first: any message makes the outcome the messages joined by "\r\n", with no request; a clean input gives the outcome of the next step. |
| AsaasTools.Tools.Run | src/Tools.php:1552-1569 | Performs a plan: rejected plans throw, sent plans go through their status table, and a subscription lists its payments only after the creation returned 200. |
| AsaasTools.Tools.CriaWebhook | src/Tools.php:214-228 | The outcome equals performing `Operations.CriaWebhook`: POSTs the parameters to `webhooks` and returns every envelope. |
| AsaasTools.Tools.ListarWebhooks | src/Tools.php:229-244 | The outcome equals performing `Operations.ListarWebhooks`: GETs `webhooks` and returns every envelope. |
| AsaasTools.Tools.RecuperaWebhook | src/Tools.php:245-261 | The outcome equals performing `Operations.RecuperaWebhook`: GETs `webhooks/<id>` and returns every envelope. |
| AsaasTools.Tools.AtualizaWebhook | src/Tools.php:262-277 | The outcome equals performing `Operations.AtualizaWebhook`: PUTs the parameters to `webhooks/<id>` and returns every envelope. |
| AsaasTools.Tools.RemoveWebhook | src/Tools.php:278-292 | The outcome equals performing `Operations.RemoveWebhook`: DELETEs `webhooks/<id>` and returns every envelope. |
| AsaasTools.Tools.ConsultaSaldo | src/Tools.php:293-308 | The outcome equals performing `Operations.ConsultaSaldo`: GETs the current balance with the caller's filters and returns every envelope. |
| AsaasTools.Tools.ConsultaExtrato | src/Tools.php:309-337 | The outcome equals performing `Operations.ConsultaExtrato`: GETs the transactions with the filters of `ExtratoFilters` (caller filters kept by key, then the forced limit and the period) and returns every envelope. |
| AsaasTools.Tools.CadastraEmpresa | src/Tools.php:348-402 | The outcome equals performing `Operations.CadastraEmpresa`: fields that are present but blank are rejected before any request; the whitelisted body is POSTed to `accounts`; a failure throws the API's error descriptions. |
| AsaasTools.Tools.EnviaDocumento | src/Tools.php:413-457 | The outcome equals performing `Operations.EnviaDocumento`: rejects a blank document type or group; posts the whitelisted body; throws the descriptions when there are some, a fixed message on 403, and otherwise the envelope itself. |
| AsaasTools.Tools.ConsultaStatusEmpresa | src/Tools.php:465-477 | The outcome equals performing `Operations.ConsultaStatusEmpresa`: GETs the account status and returns every envelope. |
| AsaasTools.Tools.ConsultaDadosComerciais | src/Tools.php:478-490 | The outcome equals performing `Operations.ConsultaDadosComerciais`: GETs the commercial data and returns every envelope. |
| AsaasTools.Tools.ConsultaStatusDocumentos | src/Tools.php:491-503 | The outcome equals performing `Operations.ConsultaStatusDocumentos`: GETs the documentation status and returns every envelope. |
| AsaasTools.Tools.BuscaDocumentos | src/Tools.php:504-517 | The outcome equals performing `Operations.BuscaDocumentos`: GETs `documents` and returns every envelope. |
| AsaasTools.Tools.ListaEmpresas | src/Tools.php:525-541 | The outcome equals performing `Operations.ListaEmpresas`: GETs `accounts` with the caller filters kept by key and the forced limit; returns every envelope. |
| AsaasTools.Tools.CadastraCliente | src/Tools.php:553-586 | The outcome equals performing `Operations.CadastraCliente`: requires a name and a CPF/CNPJ, reported in that order; POSTs the whitelisted body to `customers`; a failure throws the descriptions. |
| AsaasTools.Tools.BuscaCliente | src/Tools.php:598-618 | The outcome equals performing `Operations.BuscaCliente`: GETs `customers/<id>`; 404 and 401 have their own messages and any other failure the generic one. |
| AsaasTools.Tools.ListaClientes | src/Tools.php:638-659 | The outcome equals performing `Operations.ListaClientes`: GETs `customers` with the caller's `limit` filters dropped and `limit=100` appended; any failure throws the generic message. |
| AsaasTools.Tools.AtualizaCliente | src/Tools.php:671-714 | The outcome equals performing `Operations.AtualizaCliente`: validates, then POSTs the whitelisted body and returns the envelope whatever its status. |
| AsaasTools.Tools.GeraCobranca | src/Tools.php:725-764 | The outcome equals performing `Operations.GeraCobranca`: validates the customer, billing type, value and due date, then POSTs the whitelisted body to `payments`; a failure throws the descriptions. |
| AsaasTools.Tools.GeraCobrancaCartaoCredito | src/Tools.php:775-869 | The outcome equals performing `Operations.GeraCobrancaCartaoCredito`: validates the card, the holder and the IP, forces the billing type to CREDIT_CARD, whitelists and POSTs; a failure throws the descriptions. |
| AsaasTools.Tools.BuscaCobranca | src/Tools.php:880-911 | The outcome equals performing `Operations.BuscaCobranca`: GETs `payments/<id>`; 404 and 401 have their own messages, a non-empty error list is thrown, anything else gets the generic message. |
| AsaasTools.Tools.ListaCobrancas | src/Tools.php:931-972 | The outcome equals performing `Operations.ListaCobrancas`: GETs `payments` with the filters of `CobrancasFilters`; any failure throws the generic message. |
| AsaasTools.Tools.AtualizaCobranca | src/Tools.php:984-1034 | The outcome equals performing `Operations.AtualizaCobranca`: checks the fields that are given, POSTs the whitelisted body; on 400 returns the status and the descriptions instead of throwing. |
| AsaasTools.Tools.SimulaAntecipacaoCobranca | src/Tools.php:1042-1066 | The outcome equals performing `Operations.SimulaAntecipacaoCobranca`: refuses an empty identifier before any request; POSTs the payment to the simulation; a failure throws the descriptions. |
| AsaasTools.Tools.AntecipacaoCobranca | src/Tools.php:1074-1114 | Validates the requester and the payment, then switches upload mode on for good and POSTs the signature, the payment and the document as form fields; the new configuration is `ConfigAfter` of the old one. |
| AsaasTools.Tools.BuscaAntecipacaoCobranca | src/Tools.php:1122-1148 | The outcome equals performing `Operations.BuscaAntecipacaoCobranca`: refuses an empty identifier; GETs the anticipation; throws the descriptions, a not-found message on 404, or the internal-error message. |
| AsaasTools.Tools.EstornaCobranca | src/Tools.php:1159-1180 | The outcome equals performing `Operations.EstornaCobranca`: POSTs the parameters as the refund body; throws the descriptions or the generic message. |
| AsaasTools.Tools.RemoveCobranca | src/Tools.php:1191-1212 | The outcome equals performing `Operations.RemoveCobranca`: DELETEs the payment; throws the descriptions or the generic message. |
| AsaasTools.Tools.ConfirmaRecebimentoDinheiro | src/Tools.php:1224-1268 | The outcome equals performing `Operations.ConfirmaRecebimentoDinheiro`: validates, POSTs the whitelisted body; a 400 returns the envelope, other failures throw the descriptions or the generic message. |
| AsaasTools.Tools.GeraCobrancaParcelada | src/Tools.php:1279-1367 | The outcome equals performing `Operations.GeraCobrancaParcelada`: validates the installment fields and, when a card is given, the card, the holder and the IP; POSTs the whitelisted body; a failure throws the descriptions. |
| AsaasTools.Tools.BuscaParcelamento | src/Tools.php:1378-1395 | The outcome equals performing `Operations.BuscaParcelamento`: GETs the installment; 404 has its own message, any other failure the generic one. |
| AsaasTools.Tools.ListaParcelamentos | src/Tools.php:1405-1431 | The outcome equals performing `Operations.ListaParcelamentos`: GETs `installments` with the forced limit; 404 has its own message, any other failure the generic one. |
| AsaasTools.Tools.EstornaParcelamento | src/Tools.php:1442-1467 | The outcome equals performing `Operations.EstornaParcelamento`: POSTs the refund; 404 has its own message; otherwise throws the descriptions or the generic message. |
| AsaasTools.Tools.GeraAssinatura | src/Tools.php:1478-1576 | The outcome equals performing `Operations.GeraAssinatura`: validates, POSTs the subscription, and on 200 GETs its payments by the new identifier; a failure at either step throws that step's descriptions. |
| AsaasTools.Tools.BuscaAssinatura | src/Tools.php:1587-1612 | The outcome equals performing `Operations.BuscaAssinatura`: POSTs to `subscriptions/<id>` with the parameters as body; 404 has its own message; otherwise the descriptions or the generic message. |
| AsaasTools.Tools.ListaAssinaturas | src/Tools.php:1622-1656 | The outcome equals performing `Operations.ListaAssinaturas`: GETs `subscriptions` with the forced limit; 404 has its own message; otherwise the descriptions or the generic message. |
| AsaasTools.Tools.ListaCobrancasAssinatura | src/Tools.php:1667-1692 | The outcome equals performing `Operations.ListaCobrancasAssinatura`: GETs the subscription's payments; 404 has its own message; otherwise the descriptions or the generic message. |
| AsaasTools.Tools.AtualizaAssinatura | src/Tools.php:1704-1792 | The outcome equals performing `Operations.AtualizaAssinatura`: validates (a card always fails the holder check), POSTs the whitelisted body; a failure throws the descriptions. |
| AsaasTools.Tools.GeraPagamento | src/Tools.php:1803-1838 | The outcome equals performing `Operations.GeraPagamento`: validates, POSTs the whitelisted bill; throws the descriptions or the generic message. |
| AsaasTools.Tools.SimulaPagamento | src/Tools.php:1849-1884 | The outcome equals performing `Operations.SimulaPagamento`: requires an identification field or a bar code, POSTs the body whitelisted by `identificationField` and `barCado`; throws the descriptions or the generic message. |
| AsaasTools.Tools.BuscaPagamento | src/Tools.php:1895-1920 | The outcome equals performing `Operations.BuscaPagamento`: GETs the bill; 404 has its own message; otherwise the descriptions or the generic message. |
| AsaasTools.Tools.ListaPagamentos | src/Tools.php:1930-1964 | The outcome equals performing `Operations.ListaPagamentos`: GETs `bill` with the forced limit; 404 has its own message; otherwise the descriptions or the generic message. |
| AsaasTools.Tools.CancelaPagamento | src/Tools.php:1975-2000 | The outcome equals performing `Operations.CancelaPagamento`: POSTs the cancellation with the parameters as body; 404 has its own message; otherwise the descriptions or the generic message. |
| AsaasTools.Tools.TransfereOutroBanco | src/Tools.php:2011-2071 | The outcome equals performing `Operations.TransfereOutroBanco`: validates the value and the bank account, POSTs the whitelisted body; throws the descriptions or the generic message. |
| AsaasTools.Tools.ListaTransferencias | src/Tools.php:2081-2102 | The outcome equals performing `Operations.ListaTransferencias`: GETs `transfers`; throws the descriptions or the generic message. |
| AsaasTools.Tools.BuscaTransferencia | src/Tools.php:2113-2134 | The outcome equals performing `Operations.BuscaTransferencia`: GETs the transfer; throws the descriptions or the generic message. |
| AsaasTools.Tools.ListaBancos | src/Tools.php:2144-2170 | The outcome equals performing `Operations.ListaBancos`: GETs `banks` with the forced limit; 404 has its own message, any other failure the generic one. |
| AsaasTools.Tools.ListaContas | src/Tools.php:2180-2206 | The outcome equals performing `Operations.ListaContas`: GETs `bankAccounts` with the forced limit; 404 has its own message, any other failure the generic one. |
| Engine.Headers | src/Tools.php:193-206 | Exactly two headers: the access-token header carrying the token, then the multipart content type exactly when upload is on, JSON otherwise. |
| Engine.BaseUrl | src/Tools.php:2346-2350 | The base URL is the production or sandbox root, as configured, followed by the version number. |
| Engine.Url | src/Tools.php:2342-2371 | The URL starts with the base URL and the normalized path; a query part, opened by '?', follows exactly when there are pairs. |
| Engine.Query | src/Tools.php:2367-2370 | The query string is empty exactly when there are no pairs; otherwise it is '?' and the encoded pairs joined by '&'. |
| Engine.NormalizePath | src/Tools.php:2342-2344 | The path starts with exactly one added '/' when it did not start with one, and is unchanged when it did. |
| Engine.NormalizePathIdempotent | src/Tools.php:2342-2344 | Normalising a normalised path changes nothing. |
| Engine.RootsExclusive | src/Tools.php:2346-2349 | No URL starts with both the sandbox and the production root. |
| Engine.SandboxUnlessProduction | src/Tools.php:2346-2350 | The request URL starts with the sandbox root exactly when the client is not in production, and with the production root exactly when it is. |
| Engine.Pair | src/Tools.php:2362-2363 | A filter contributes nothing exactly when its name or value is unset or empty; otherwise its name and value as strings, and the script dies when either is an array or object. |
| Engine.Pairs | src/Tools.php:2358-2366 | At most one pair per filter. |
| Engine.Survivors | src/Tools.php:2362 | Exactly the filters whose name and value are set and not empty. |
| Engine.Survives | src/Tools.php:2362 | A filter that is sent is an array whose name and value are both set and non-empty (not null, "", "0", 0 or false). |
| Engine.HasRefusedSnoc | src/Tools.php:2361-2366 | A list with one more filter is refused exactly when the shorter one was or the new filter is. |
| Engine.PairsFatal | src/Tools.php:2361-2366 | The query fails exactly when one of its filters is refused. |
| Engine.PairsOfSurvivors | src/Tools.php:2361-2366 | Otherwise the pairs are those of the surviving filters, one each, in input order. |
| Engine.PairsAppend | src/Tools.php:2361-2366 | A surviving filter appended last appends its pair last. |
| Engine.PairsAppendDropped | src/Tools.php:2361-2366 | A filter that does not survive leaves the pairs unchanged. |
| Engine.EncodePairs | src/Tools.php:2363 | One `urlencode(name)=urlencode(value)` per pair, in order. |
| Engine.EncodePairsSnoc | src/Tools.php:2363 | Encoding a longer pair list appends the new pair's encoding. |
| Engine.RefusedFilter | src/Tools.php:2363 | One refused filter anywhere refuses the whole query. |
| Engine.EncodedPairReadsBack | src/Tools.php:2363 | An encoded pair holds exactly one '=', with the encoded name before it and the encoded value after it. |
| Engine.QueryReadsBack | src/Tools.php:2367-2370 | No pairs give no query; otherwise the query is '?' followed by pieces that, cut at '&', give back each encoded pair in order. |
| Engine.PayloadFor | src/Tools.php:2240-2305 | GET and DELETE send no body; POST and PUT send the body as JSON, or as form fields exactly in upload mode. |
| Engine.MakeEnvelope | src/Tools.php:2377-2381 | The body is decoded exactly when decoding is on or the status is not 200, raw otherwise; the status is always there; the transfer details exactly in debug mode. |
| Engine.DecodeMattersOnlyFor200 | src/Tools.php:2377 | With a status other than 200 the decode setting makes no difference. |
| Engine.MakeRequest | src/Tools.php:2216-2305 | The request headers are the default headers followed by the caller's. |
| Engine.Call | src/Tools.php:2340-2385 | A request fails before sending exactly when its query is refused; a reply carries the status the server answered to the request built from the path, body and query pairs. |
| Filters.Kept | src/Tools.php:640-642 | `array_filter` keeps no more entries than it is given, and every kept entry passes the listing's test (by name, by key, or by key and non-blank value). |
| Filters.KeptMembers | src/Tools.php:640-642 | An entry is kept exactly when it is among the caller's entries and passes the test. |
| Filters.KeptAppend | src/Tools.php:529-531 | Filtering an array made of two parts filters each part and keeps them in order. |
| Filters.KeptByKeyKeepsAll | src/Tools.php:529-531 | On a list (integer keys) the test `$k !== 'limit'` keeps every entry: the result is the caller's array unchanged. |
| Filters.KeptByKeyNonBlank | src/Tools.php:313-315 | On a list, the key-and-blank test keeps, in order, exactly the entries whose `value` is not the empty string. |
| Filters.ListFilters | src/Tools.php:640-647 | The name-testing listings send every caller filter not named "limit", in order and unchanged, followed by the forced page-size filter as the last one. |
| Filters.EmpresasFilters | src/Tools.php:527-536 | The accounts listing ends with the forced page size, and on a list of caller filters it is all of them, unchanged, then the page size. |
| Filters.ExtratoFilters | src/Tools.php:313-331 | The statement filters are exactly the caller's entries kept by the key-and-blank test (so every value is not ""), then the page size, startDate and finishDate read from `dados`, in that order. |
| Filters.CobrancasFilters | src/Tools.php:934-960 | The payments filters are exactly the caller's entries kept by the key-and-blank test (so every value is not ""), then the page size, customer, dueDate[ge] from dueDateStart, dueDate[le] from dueDateEnd and status, in that order. |
| Filters.EmpresasFiltersKeepAll | src/Tools.php:527-536 | On a list, the accounts query is the pairs of every caller filter followed by `limit=100`. |
| Filters.ExtratoFiltersOrder | src/Tools.php:310-334 | The statement query is the kept caller pairs, then `limit=100`, then startDate and finishDate, in that order; an absent or empty date adds no pair. |
| Filters.PairsSnocFilter | src/Tools.php:2361-2366 | A filter built by a listing adds nothing to the query when its value is empty, and its name with the value as a string otherwise. |
| Filters.ExtratoKeepsCallerLimit | src/Tools.php:313-315 | A caller `limit` filter with a non-empty value is kept by the statement query and sent before the forced `limit=100`. |
| Filters.CobrancasKeepsCallerLimit | src/Tools.php:934-936 | A caller `limit` filter with a non-empty value is kept by the payments query and sent before the forced `limit=100`. |
| Filters.OnlyLimitIsLimit | src/Tools.php:641 | Only the string `limit` converts to the name `limit`. |
| Filters.NoLimitPairs | src/Tools.php:641 | Filters none of which is named `limit` produce no pair named `limit`. |
| Filters.KeptByNameHasNoLimit | src/Tools.php:640-642 | After the by-name filtering no filter is named `limit`. |
| Filters.ListFiltersForceLimit | src/Tools.php:640-647 | The list methods' query ends with `limit=100`, and no earlier pair is named `limit`. |
| Filters.ByKeyKeepsCallerLimit | src/Tools.php:529-536 | On any list of caller filters, every caller `limit` filter that survives is sent, before the forced `limit=100` that ends the query: the query carries two page sizes. |
| Filters.ZeroValueDropped | src/Tools.php:2362 | A filter with value "0" passes the non-empty-string test but is dropped from the query. |
| Filters.FilterPair | src/Tools.php:2362-2363 | A synthesised filter with non-empty name and value becomes exactly that pair. |
| Filters.CobrancasFiltersOrder | src/Tools.php:931-960 | The payments query is the kept caller pairs, then `limit=100`, customer, dueDate[ge], dueDate[le] and status, in that order; a field that is absent or empty adds no pair. |
| Rules.Entries | src/Tools.php:792-808 | Reading a field inside a sub-array behaves as reading it from the parent value. |
| Rules.Check | src/Tools.php:553-565 | A one-field check yields its message exactly when it fails. |
| Rules.Fails | src/Tools.php:553-565 | A required field fails exactly when it is empty; a blank check fails only on a field that is present; the unconditional check of `atualizaAssinatura` always fails. |
| Rules.CheckAll | src/Tools.php:553-565 | An empty table reports nothing, and a one-rule table reports exactly that rule's messages. |
| Rules.CheckAllAppend | src/Tools.php:553-565 | Checks report in table order: the messages of two tables in a row are those of the first, then those of the second. |
| Rules.SimpleTable | src/Tools.php:553-565 | For one-field checks, every failure is reported, every message comes from a failure, and the table passes exactly when no check fails. |
| Rules.SetOrEmptyAlwaysFails | src/Tools.php:1742-1743 | The test `isset(x) \\|\\| empty(x)` fails for every input. |
| Rules.RequiredInside | src/Tools.php:813-833 | One required-field check per holder or card field, each naming the field and its container. |
| Rules.CardSectionChecks | src/Tools.php:788-812 | A missing card reports only the card message; a present card reports exactly its missing fields. |
| PhpValues.At | src/Tools.php:553-565 | A key reads a value only when the array holds it, and null otherwise. |
| PhpValues.MissingIsEmpty | src/Tools.php:553-565 | `!isset(x) \\|\\| empty(x)` is `empty(x)`, and a blank field is a missing one. |
| PhpValues.IsEmpty | src/Tools.php:351-375 | `empty` holds only of null, the empty array and values whose string form is "" or "0"; on a string it holds exactly then. |
| PhpValues.LooseIn | src/Tools.php:385 | Loose `in_array` on a string is membership; a non-string other than `true` is in no list of words. |
| PhpValues.Only | src/Tools.php:568-570 | The whitelist keeps only string-keyed slots of listed fields taken from the input. |
| PhpValues.OnlyAt | src/Tools.php:568-570 | After whitelisting, a listed field reads as in the input and any other field as null. |
| PhpValues.AssignAt | src/Tools.php:850 | After an assignment the key reads the new value and every other key reads as before. |
| PhpValues.Values | src/Tools.php:2361 | The filter list visits the array's values in order. |
| PhpValues.NatToString | src/Tools.php:2346 | Decimal digits with no leading zero. |
| PhpValues.NatToStringRoundTrip | src/Tools.php:2346 | The decimal rendering reads back as the number. |
| PhpValues.ToPhpString | src/Tools.php:2363 | Conversion to string fails exactly for arrays, objects and files. |
| PhpValues.Prop | src/Tools.php:893-896 | A property reads a value only from a decoded object holding it. |
| PhpValues.JsonToValue | src/Tools.php:1555-1559 | A decoded value is empty exactly for null, false, 0, "", "0" and the empty list. |
| PhpValues.Stringify | src/Tools.php:908 | `implode` fails exactly on an object. |
| UrlEncoding.UrlEncode | src/Tools.php:2363 | The encoding is at least as long as the input. |
| UrlEncoding.EncodeAppend | src/Tools.php:2363 | Encoding distributes over concatenation. |
| UrlEncoding.EncodedChars | src/Tools.php:2363 | An encoding holds only encoded characters, never '&' or '='. |
| UrlEncoding.UnreservedFixed | src/Tools.php:2363 | Letters, digits and `-_.` encode to themselves. |
| UrlEncoding.PlainEncoding | src/Tools.php:2363 | An encoding made only of unreserved characters is the input itself. |
| UrlEncoding.EncodesToLimit | src/Tools.php:2363 | Only `limit` encodes to `limit`. |
| UrlEncoding.EncodeSpace | src/Tools.php:2363 | A space encodes as '+'. |
| UrlEncoding.EncodeBrackets | src/Tools.php:955-957 | `dueDate[ge]` is sent as `dueDate%5Bge%5D`. |
| Responses.Descriptions | src/Tools.php:574-578 | The descriptions exist exactly when the body carries an error list, one per error, in order. |
| Responses.Texts | src/Tools.php:580 | The descriptions convert to strings exactly when none is an object. |
| Responses.ErrorText | src/Tools.php:580 | Joining the descriptions fails exactly when one is an object. |
| Responses.CarriageEnded | src/Tools.php:580 | Each part but the last gets a trailing carriage return. |
| Responses.JoinCrlf | src/Tools.php:580 | Joining by "\r\n" is joining the carriage-ended parts by "\n". |
| Responses.MessageLines | src/Tools.php:580 | Cutting the joined message at line feeds gives back every part, in order. |
| Responses.StringDescriptions | src/Tools.php:574-580 | String descriptions make a message that is those strings joined by "\r\n". |
| Responses.RaiseErrors | src/Tools.php:574-580 | Throwing the descriptions either throws a message or ends the script, the latter exactly when there is no list or a description is an object. |
| Responses.Apply | src/Tools.php:602-617 | A table returns only the envelope it was given. |
| Responses.Respond | src/Tools.php:598-617 | Status 200 always returns the envelope unchanged. |
| Responses.ReturnedOnlyOnSuccess | src/Tools.php:598-617 | A failed status returns the envelope only when the table says so for that status. |
| Responses.FirstFailOnDecides | src/Tools.php:602-608 | A fixed message tested first for the status at hand is thrown whatever follows. |
| Responses.RaiseErrorsMessage | src/Tools.php:574-580 | With a list of non-object descriptions the message is their text joined by "\r\n". |
| Operations.Checked | src/Tools.php:553-566 | Any message rejects the plan with exactly those messages; none lets the next step through. |
| Operations.Perform | src/Tools.php:553-586 | A rejected plan throws its messages joined by CRLF and sends nothing; a refused query crashes the call; a subscription that returns does so with status 200. |
| Operations.ConfigAfter | src/Tools.php:1095 | Only the upload flag may change, and it ends on exactly when it was on or the plan is an upload. |
| Guarantees.RejectedBeforeRequest | src/Tools.php:562-565 | A rejected input throws its messages joined by "\r\n", whatever the network does, and leaves the configuration as it was. |
| Guarantees.CadastraClienteContract | src/Tools.php:553-572 | The messages are exactly the missing name and CPF/CNPJ, in that order; otherwise the request posts the input restricted to the whitelist with values unchanged. |
| Guarantees.CadastraEmpresaBlankOnly | src/Tools.php:351-380 | The account is sent exactly when none of the nine fields is present but blank, so leaving all of them out is accepted. |
| Guarantees.NotBlankChecked | src/Tools.php:351-380 | A table of presence-but-blank checks passes exactly when no field is blank. |
| Guarantees.SimulaAntecipacaoNeedsId | src/Tools.php:1044-1055 | The plan is rejected exactly for "" and "0", with the missing-id message; otherwise the body is the payment id. |
| Guarantees.BuscaAntecipacaoNeedsId | src/Tools.php:1124-1131 | The plan is rejected exactly for "" and "0"; otherwise it asks for `anticipations/<id>`. |
| Guarantees.AtualizaAssinaturaCardRejected | src/Tools.php:1722-1746 | Whenever a card is present the holder message is reported and the update is never sent. |
| Guarantees.CartaoForcesBillingType | src/Tools.php:850-853 | The sent body always bills CREDIT_CARD; every other field is whitelisted with its value unchanged. |
| Guarantees.SimulaPagamentoDropsBarCode | src/Tools.php:1851-1865 | A bar code satisfies the check, but the sent body never carries `barCode`. |
| Guarantees.AntecipacaoUploadSticky | src/Tools.php:1088-1096 | Upload mode ends on exactly when it was on or the checks passed, and then the request carries the multipart header and form fields. |
| Guarantees.AntecipacaoBodyFields | src/Tools.php:1088-1094 | The body carries the requester as signature and the payment, and a file part exactly when a document is given. |
| Guarantees.SendResponds | src/Tools.php:2216-2256 | A sent plan answers with its table applied to the envelope of its request. |
| Guarantees.PassThroughReturns | src/Tools.php:214-228 | Operations without a status table return every envelope. |
| Guarantees.BuscaClienteStatuses | src/Tools.php:600-614 | 200 returns the envelope, 404 throws 'Cliente não encontrado', 401 'Sem comunicação com o Asaas', any other status the generic message. |
| Guarantees.AtualizaClienteReturnsAll | src/Tools.php:690-696 | A validated update returns the envelope whatever its status. |
| Guarantees.AtualizaCobrancaOn400 | src/Tools.php:1015-1024 | On 400 the outcome is the status with the error descriptions, not an exception. |
| Guarantees.AtualizaCobrancaTable400 | src/Tools.php:1015-1024 | The update table answers 400 with the descriptions, or ends the script when there is no list. |
| Guarantees.ConfirmaRecebimentoOn400 | src/Tools.php:1252-1254 | On 400 the envelope is returned as on success. |
| Guarantees.ErrorsOtherwiseNeedsErrors | src/Tools.php:574-580 | Operations that throw the descriptions unconditionally end the script on a failure without an error list. |
| Guarantees.BuscaCobrancaErrors | src/Tools.php:896-907 | An empty error list falls back to the generic message; a non-empty one is thrown. |
| Guarantees.EnviaDocumentoFallback | src/Tools.php:442-454 | Without errors and with a status other than 403 the exception carries the envelope itself. |
| Guarantees.GeraAssinaturaSteps | src/Tools.php:1552-1573 | A failed creation throws its own descriptions; a created subscription goes on to list its payments. |
| Guarantees.SubscriptionQuery | src/Tools.php:1555-1561 | The payments are asked for with the single pair `subscription=<id>`. |
| Guarantees.SubscribeSteps | src/Tools.php:1552-1573 | A subscription whose creation answers 200 goes on to list its payments; any other status throws the API's errors. |
| Guarantees.BuscaAntecipacaoErrorsFirst | src/Tools.php:1134-1143 | On a 404 the API's error list, when present, is reported before the "Antecipação não encontrada" message. |
| Guarantees.EstornaParcelamentoNotFound | src/Tools.php:1445-1453 | A 404 when refunding an installment throws the plural "Parcelamentos não encontrados". |
| Guarantees.PlainPath | src/Tools.php:2342-2371 | Without pairs, a path not starting with '/' gives the URL made of the base URL, '/' and the path. |
| Guarantees.BuscaAssinaturaSendsBody | src/Tools.php:1587-1590 | Fetching a subscription POSTs its parameters as the JSON body, with no query. |
| Guarantees.CancelaPagamentoSendsBody | src/Tools.php:1975-1978 | Cancelling a bill payment POSTs its parameters as the JSON body, with no query. |
| Helpers.Digits | src/helpers.php:6 | Only digits, never longer than the input. |
| Helpers.Take | src/helpers.php:7 | A prefix of the input, of the requested length or the whole input. |
| Helpers.DigitsAppend | src/helpers.php:6 | Stripping distributes over concatenation. |
| Helpers.DigitsOfDigits | src/helpers.php:6 | A digit string is left as it is. |
| Helpers.FormatCpf | src/helpers.php:4-14 | With at least 11 digits the result has the form ddd.ddd.ddd-dd; otherwise it is the bare digits, shorter than 11; its digits are always the first 11 of the input's. |
| Helpers.CpfShape | src/helpers.php:10 | The punctuated CPF follows the mask `ddd.ddd.ddd-dd`. |
| Helpers.CpfDigits | src/helpers.php:10 | The punctuated CPF keeps its 11 digits. |
| Helpers.FormatCpfIdempotent | src/helpers.php:6-13 | Formatting a CPF twice changes nothing. |
| Helpers.FormatCnpj | src/helpers.php:18-28 | With at least 14 digits the result has the form dd.ddd.ddd/dddd-dd; otherwise the bare digits, shorter than 14; its digits are the first 14 of the input's. |
| Helpers.CnpjShape | src/helpers.php:24 | The punctuated CNPJ follows the mask `dd.ddd.ddd/dddd-dd`. |
| Helpers.CnpjDigits | src/helpers.php:24 | The punctuated CNPJ keeps its 14 digits. |
| Helpers.FormatCnpjIdempotent | src/helpers.php:20-27 | Formatting a CNPJ twice changes nothing. |
| Helpers.FormatPhone | src/helpers.php:32-46 | 11 digits or more give (dd) ddddd-dddd, exactly 10 give (dd) dddd-dddd, fewer the bare digits; its digits are the first 11 of the input's. |
| Helpers.MobileShape | src/helpers.php:39 | The punctuated mobile number follows the mask `(dd) ddddd-dddd`. |
| Helpers.MobileDigits | src/helpers.php:39 | The punctuated mobile number keeps its 11 digits. |
| Helpers.LandlineShape | src/helpers.php:41 | The punctuated landline number follows the mask `(dd) dddd-dddd`. |
| Helpers.LandlineDigits | src/helpers.php:41 | The punctuated landline number keeps its 10 digits. |
| Helpers.FormatPhoneIdempotent | src/helpers.php:34-45 | Formatting a phone number twice changes nothing. |
| Helpers.FormatPostalCode | src/helpers.php:50-60 | With at least 8 digits the result has the form ddddd-ddd; otherwise the bare digits, shorter than 8; its digits are the first 8 of the input's. |
| Helpers.PostalCodeShape | src/helpers.php:56 | The punctuated postal code follows the mask `ddddd-ddd`. |
| Helpers.PostalCodeDigits | src/helpers.php:56 | The punctuated postal code keeps its 8 digits. |
| Helpers.FormatPostalCodeIdempotent | src/helpers.php:52-59 | Formatting a postal code twice changes nothing. |
| Helpers.ConvertBack | src/helpers.php:71-85 | Splitting, reversing and joining with a separator absent from the input is undone by the opposite conversion. |
| Helpers.DateEnRoundTrip | src/helpers.php:71-85 | A date without '/' comes back unchanged from the Brazilian form. |
| Helpers.DateBrRoundTrip | src/helpers.php:71-85 | A date without '-' comes back unchanged from the ISO form. |
| Helpers.DateEnToBrSeparators | src/helpers.php:71-76 | The Brazilian form holds no '-'. |
| Helpers.DateBrToEnSeparators | src/helpers.php:80-85 | The ISO form holds no '/'. |
| Helpers.DateEnToBrParts | src/helpers.php:71-76 | An ISO date `y-m-d` whose parts hold no '-' becomes `d/m/y`. |
| Helpers.DateBrToEnParts | src/helpers.php:80-85 | A Brazilian date `d/m/y` whose parts hold no '/' becomes `y-m-d`. |
| Strings.Join | src/helpers.php:75 | `implode`: no parts give "", one part gives itself. |
| Strings.Split | src/helpers.php:72 | `explode`: at least one piece, none containing the separator. |
| Strings.ReverseReverse | src/helpers.php:73 | Reversing twice gives the list back. |
| Strings.JoinSplit | src/helpers.php:72-75 | Joining the pieces of a split with the same separator gives the string back. |
| Strings.SplitJoin | src/helpers.php:72-75 | Splitting a join of separator-free pieces gives the pieces back. |
| Strings.JoinAvoids | src/helpers.php:75 | A character in neither the pieces nor the separator is not in the join. |

## Left out

- The cURL transport (`curl_init`, `curl_setopt`, `curl_exec`, `curl_getinfo`, `curl_close`) is the `Net.send` parameter. The model keeps the request it is given, not curl's options.
- `json_encode` of a body is not modelled: a JSON payload carries the body's fields. `json_decode` is the `Net.jsonDecode` parameter, and decoded JSON has no fractional numbers.
- The `CURLFile` of an anticipation's document is a `File` value carrying the path, type and name. Nothing is read from disk.
- Most operations catch their own exception and rethrow `new Exception($error, 1)`, whose message embeds the inner exception and its stack trace. The model keeps only the inner message, as `Thrown`.
- `EnviaDocumento` throws `json_encode` of the envelope. The model keeps the envelope itself (`ThrownEnvelope`), not its encoding.
- The private `options` method is never called, so it is not modelled.
- `formatValueToFloat` is not modelled: it needs float conversion and `number_format`.
- `dateDiff` is not modelled: it depends on PHP's date library.
- Reading a non-numeric string key of a string value throws an uncaught `Error` in PHP 8, for example `$v['value']` or `$item['name']` on a caller filter that is a string. The model reads it as null, like a key of any other non-array value, and goes on.
- PhpValues.Field, Rules.Entries, Filters.Kept, Engine.Survives and Operations.AntecipacaoBody read a key of an object (a `stdClass` or a `CURLFile`) as null. In PHP 8, `$v['k']` on such an object throws an uncaught `Error` ("Cannot use object of type stdClass as array"), even inside `isset` and `empty`. Examples are a `creditCard` given as an object (Tools.php:792-808), a filter given as an object to `listaClientes` (Tools.php:641) and a `documento` given as an object (Tools.php:1088-1094). So `Rules.CardSectionChecks` and `Guarantees.AtualizaAssinaturaCardRejected` describe PHP only for cards that are arrays or scalars.
- PHP's `(string)` of floats is not modelled: decoded JSON and the caller's values hold no fractional numbers. Booleans are converted as PHP does (`true` to "1", `false` to ""), so a caller filter holding `true` is sent as "1".
- LooseIn, Only and Pair follow PHP 8. Under PHP 7, `in_array` compares `0` loosely equal to any non-numeric string, so an integer key 0 passes every whitelist and the value 0 matches every word; and `urlencode` of an array only warns and yields null instead of raising a TypeError.
- PHP warnings and notices are not modelled: reading a missing property or key yields null and execution goes on.
- Type errors raised by PHP's own function signatures on the caller's arguments are not modelled. The model only accepts well-typed arguments: strings for identifiers and arrays for data.
- The default-parameter arrays of `get`/`post`/`put`/`delete` are not modelled. The operations always pass theirs explicitly, and no operation passes extra headers.
