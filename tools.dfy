/**
 * The client object: its configuration, the request primitives and one
 * method per API operation. Each operation method performs the plan its
 * namesake in `Operations` describes, against the configuration the object
 * holds when it is called.
 */
module AsaasTools {
  import opened Strings
  import opened PhpValues
  import opened UrlEncoding
  import opened Engine
  import opened Rules
  import opened Responses
  import Operations

  class Tools {
    var accessToken: string
    var production: bool
    var debug: bool
    var version: int
    var upload: bool
    var decode: bool

    /** Only the versions `setVersion` accepts are ever configured. */
    ghost predicate Valid()
      reads this
    {
      SupportedVersion(version)
    }

    /** The configuration map as a value. */
    function Snapshot(): Config
      reads this
    {
      Config(accessToken, production, debug, version, upload, decode)
    }

    /** A client for `token`, in production unless told otherwise, on version 3, decoding replies. */
    constructor(token: string, isProduction: bool := true)
      ensures Valid()
      ensures Snapshot() == Config(token, isProduction, false, 3, false, true)
    {
      accessToken := token;
      production := isProduction;
      debug := false;
      version := 3;
      upload := false;
      decode := true;
    }

    // ---------------------------------------------------- getters, setters

    /** The access token the client sends, from the configuration map. */
    function GetToken(): (t: string)
      reads this
      ensures t == Snapshot().accessToken
      ensures TokenHeaderPrefix + t == Headers(Snapshot())[0]
    {
      accessToken
    }

    /** Whether requests go to the production host. */
    function GetProduction(): (p: bool)
      reads this
      ensures p == Snapshot().production
      ensures forall path, pairs :: p <==> ProductionRoot <= Url(Snapshot(), path, pairs)
    {
      assert forall path, pairs :: production <==> ProductionRoot <= Url(Snapshot(), path, pairs) by {
        forall path, pairs ensures production <==> ProductionRoot <= Url(Snapshot(), path, pairs) {
          SandboxUnlessProduction(Snapshot(), path, pairs);
        }
      }
      production
    }

    /** Whether POST and PUT bodies go as multipart form fields. */
    function GetUpload(): (u: bool)
      reads this
      ensures u == Snapshot().upload
      ensures u <==> Headers(Snapshot())[1] == MultipartContentType
    {
      upload
    }

    /** Whether a 200 reply body is decoded. */
    function GetDecode(): (d: bool)
      reads this
      ensures d == Snapshot().decode
      ensures forall raw, info, net :: d <==> MakeEnvelope(Snapshot(), Reply(200, raw, info), net).body.Decoded?
    {
      decode
    }

    /** The API version in the request URL. */
    function GetVersion(): (v: int)
      reads this
      ensures v == Snapshot().version
      ensures Valid() ==> SupportedVersion(v)
    {
      version
    }

    method SetProduction(isProduction: bool)
      modifies this
      ensures GetProduction() == isProduction
      ensures Snapshot() == old(Snapshot()).(production := isProduction)
      ensures old(Valid()) ==> Valid()
    {
      production := isProduction;
    }

    method SetUpload(isUpload: bool)
      modifies this
      ensures GetUpload() == isUpload
      ensures Snapshot() == old(Snapshot()).(upload := isUpload)
      ensures old(Valid()) ==> Valid()
    {
      upload := isUpload;
    }

    method SetDecode(shouldDecode: bool)
      modifies this
      ensures GetDecode() == shouldDecode
      ensures Snapshot() == old(Snapshot()).(decode := shouldDecode)
      ensures old(Valid()) ==> Valid()
    {
      decode := shouldDecode;
    }

    method SetToken(token: string)
      modifies this
      ensures GetToken() == token
      ensures Snapshot() == old(Snapshot()).(accessToken := token)
      ensures old(Valid()) ==> Valid()
    {
      accessToken := token;
    }

    /** Only 2 and 3 are taken; any other version leaves the client as it was. */
    method SetVersion(v: int)
      modifies this
      ensures SupportedVersion(v) ==> GetVersion() == v && Snapshot() == old(Snapshot()).(version := v)
      ensures !SupportedVersion(v) ==> Snapshot() == old(Snapshot())
      ensures old(Valid()) ==> Valid()
    {
      if v == 2 || v == 3 {
        version := v;
      }
    }

    method SetDebug(isDebug: bool)
      modifies this
      ensures Snapshot() == old(Snapshot()).(debug := isDebug)
      ensures old(Valid()) ==> Valid()
    {
      debug := isDebug;
    }

    // ------------------------------------------------------------ requests

    /** The token header, then the content type for the current mode. */
    method DefaultHeaders() returns (h: seq<string>)
      ensures h == Headers(Snapshot())
    {
      h := [TokenHeaderPrefix + accessToken];
      if !upload {
        h := h + [JsonContentType];
      } else {
        h := h + [MultipartContentType];
      }
    }

    /**
     * The `foreach` of `execute`: the encoded `name=value` of each filter
     * whose name and value are set and not empty, in order. A filter whose
     * name or value `urlencode` cannot take ends the script.
     */
    method JoinFilters(filters: seq<Value>) returns (r: Result<seq<string>>)
      ensures r.Fatal? <==> Pairs(filters).Fatal?
      ensures r.Ok? ==> r.value == EncodePairs(Pairs(filters).value)
    {
      var joined: seq<string> := [];
      ghost var ps: seq<(string, string)> := [];
      var i := 0;
      while i < |filters|
        invariant 0 <= i <= |filters|
        invariant Pairs(filters[..i]) == Ok(ps)
        invariant joined == EncodePairs(ps)
      {
        var f := filters[i];
        assert filters[..i + 1] == filters[..i] + [f];
        var name := Field(f, "name");
        var value := Field(f, "value");
        if IsSet(name) && !IsEmpty(name) && IsSet(value) && !IsEmpty(value) {
          var n := ToPhpString(name);
          var v := ToPhpString(value);
          if n.None? || v.None? {
            RefusedFilter(filters, i);
            return Fatal;
          }
          PairsAppend(filters[..i], f, (n.value, v.value));
          EncodePairsSnoc(ps, (n.value, v.value));
          joined := joined + [UrlEncode(n.value) + "=" + UrlEncode(v.value)];
          ps := ps + [(n.value, v.value)];
        } else {
          PairsAppendDropped(filters[..i], f);
        }
        i := i + 1;
      }
      assert filters[..|filters|] == filters;
      r := Ok(joined);
    }

    /**
     * The URL of `execute`: the root of the configured environment, the
     * version, the path with one leading '/', and the query string of the
     * surviving filters, if any survive.
     */
    method BuildUrl(path: string, filters: seq<Value>) returns (r: Result<string>)
      ensures r.Fatal? <==> Pairs(filters).Fatal?
      ensures r.Ok? ==> r.value == Url(Snapshot(), path, Pairs(filters).value)
    {
      var p := path;
      if !(|p| > 0 && p[0] == '/') {
        p := "/" + p;
      }
      var url := if production then ProductionRoot else SandboxRoot;
      url := url + IntToString(version) + p;
      assert url == BaseUrl(Snapshot()) + NormalizePath(path);

      var joined := JoinFilters(filters);
      if joined.Fatal? {
        return Fatal;
      }
      ghost var ps := Pairs(filters).value;
      assert |joined.value| == |ps|;
      ghost var prefix := url;
      if joined.value != [] {
        url := url + ("?" + Join(joined.value, "&"));
        assert Query(ps) == "?" + Join(joined.value, "&");
      } else {
        assert Query(ps) == [];
        assert url == prefix + Query(ps);
      }
      r := Ok(url);
    }

    /**
     * One request: the URL for the configured environment and version with
     * the query string of the surviving filters, the default headers
     * followed by `extra`, and the envelope of the reply.
     */
    method Execute(verb: HttpMethod, path: string, body: seq<Entry>, filters: seq<Value>,
                   extra: seq<string>, net: Net) returns (r: Result<Envelope>)
      ensures r == Call(Snapshot(), verb, path, body, filters, extra, net)
    {
      var url := BuildUrl(path, filters);
      if url.Fatal? {
        return Fatal;
      }
      var headers := DefaultHeaders();
      var payload := PayloadFor(Snapshot(), verb, body);
      var request := Request(verb, url.value, headers + extra, payload);
      assert request == MakeRequest(Snapshot(), verb, path, body, Pairs(filters).value, extra);
      var reply := net.send(request);
      var decoded := if decode || reply.status != 200 then Decoded(net.jsonDecode(reply.raw)) else Raw(reply.raw);
      var info := if debug then Some(reply.info) else None;
      r := Ok(Envelope(decoded, reply.status, info));
    }

    method Get(path: string, filters: seq<Value>, extra: seq<string>, net: Net) returns (r: Result<Envelope>)
      ensures r == Call(Snapshot(), GET, path, [], filters, extra, net)
    {
      r := Execute(GET, path, [], filters, extra, net);
    }

    method Post(path: string, body: seq<Entry>, filters: seq<Value>, extra: seq<string>, net: Net) returns (r: Result<Envelope>)
      ensures r == Call(Snapshot(), POST, path, body, filters, extra, net)
    {
      r := Execute(POST, path, body, filters, extra, net);
    }

    method Put(path: string, body: seq<Entry>, filters: seq<Value>, extra: seq<string>, net: Net) returns (r: Result<Envelope>)
      ensures r == Call(Snapshot(), PUT, path, body, filters, extra, net)
    {
      r := Execute(PUT, path, body, filters, extra, net);
    }

    method Delete(path: string, filters: seq<Value>, extra: seq<string>, net: Net) returns (r: Result<Envelope>)
      ensures r == Call(Snapshot(), DELETE, path, [], filters, extra, net)
    {
      r := Execute(DELETE, path, [], filters, extra, net);
    }

    /** The request a step describes, through the primitive for its verb. */
    method Issue(step: Operations.Step, net: Net) returns (r: Result<Envelope>)
      ensures r == Call(Snapshot(), step.verb, step.path, step.body, step.filters, [], net)
    {
      match step.verb
      case GET => r := Get(step.path, step.filters, [], net);
      case POST => r := Post(step.path, step.body, step.filters, [], net);
      case PUT => r := Put(step.path, step.body, step.filters, [], net);
      case DELETE => r := Delete(step.path, step.filters, [], net);
    }

    /**
     * Carries out a plan: a rejected one throws its messages, a sent one
     * answers through its status table, and a subscription lists the
     * payments of what it created. An upload plan expects upload mode on.
     */
    method Run(plan: Operations.Plan, net: Net) returns (o: Outcome)
      requires plan.Send? && plan.upload ==> upload
      ensures o == Operations.Perform(Snapshot(), plan, net)
    {
      match plan
      case Reject(errors) =>
        o := Thrown(Join(errors, Crlf));
      case Send(step, handling, _) =>
        var r := Issue(step, net);
        if r.Fatal? {
          o := Crashed;
        } else {
          o := Respond(r.value, handling);
        }
      case Subscribe(step) =>
        var r := Issue(step, net);
        if r.Fatal? {
          o := Crashed;
        } else if r.value.httpCode != 200 {
          o := RaiseErrors(r.value);
        } else {
          var listed := Get("payments", [Operations.SubscriptionFilter(r.value)], [], net);
          if listed.Fatal? {
            o := Crashed;
          } else if listed.value.httpCode == 200 {
            o := Returned(listed.value);
          } else {
            o := RaiseErrors(listed.value);
          }
        }
    }

    /**
     * An operation's checks, run one after the other, every failure's
     * messages added to the list in turn.
     */
    method Validate(data: seq<Entry>, rules: seq<Rule>) returns (errors: seq<string>)
      ensures errors == CheckAll(data, rules)
    {
      errors := [];
      var i := 0;
      while i < |rules|
        invariant 0 <= i <= |rules|
        invariant errors == CheckAll(data, rules[..i])
      {
        assert rules[..i + 1] == rules[..i] + [rules[i]];
        CheckAllAppend(data, rules[..i], [rules[i]]);
        assert CheckAll(data, [rules[i]]) == Check(data, rules[i]) + CheckAll(data, []);
        errors := errors + Check(data, rules[i]);
        i := i + 1;
      }
      assert rules[..|rules|] == rules;
    }

    /** Validates first and throws every message at once; only a clean input goes on to `next`. */
    method RunChecked(data: seq<Entry>, rules: seq<Rule>, next: Operations.Plan, net: Net) returns (o: Outcome)
      requires next.Send? && next.upload ==> upload
      ensures o == Operations.Perform(Snapshot(), Operations.Checked(data, rules, next), net)
    {
      var errors := Validate(data, rules);
      if errors != [] {
        o := Thrown(Join(errors, Crlf));
      } else {
        o := Run(next, net);
      }
    }

    // ---------------------------------------------------------- operations

    method CriaWebhook(params: seq<Entry>, net: Net) returns (o: Outcome)
      ensures o == Operations.Perform(Snapshot(), Operations.CriaWebhook(params), net)
    {
      o := Run(Operations.CriaWebhook(params), net);
    }

    method ListarWebhooks(net: Net) returns (o: Outcome)
      ensures o == Operations.Perform(Snapshot(), Operations.ListarWebhooks(), net)
    {
      o := Run(Operations.ListarWebhooks(), net);
    }

    method RecuperaWebhook(id: string, net: Net) returns (o: Outcome)
      ensures o == Operations.Perform(Snapshot(), Operations.RecuperaWebhook(id), net)
    {
      o := Run(Operations.RecuperaWebhook(id), net);
    }

    method AtualizaWebhook(id: string, params: seq<Entry>, net: Net) returns (o: Outcome)
      ensures o == Operations.Perform(Snapshot(), Operations.AtualizaWebhook(id, params), net)
    {
      o := Run(Operations.AtualizaWebhook(id, params), net);
    }

    method RemoveWebhook(id: string, net: Net) returns (o: Outcome)
      ensures o == Operations.Perform(Snapshot(), Operations.RemoveWebhook(id), net)
    {
      o := Run(Operations.RemoveWebhook(id), net);
    }

    method ConsultaSaldo(params: seq<Entry>, net: Net) returns (o: Outcome)
      ensures o == Operations.Perform(Snapshot(), Operations.ConsultaSaldo(params), net)
    {
      o := Run(Operations.ConsultaSaldo(params), net);
    }

    method ConsultaExtrato(dados: seq<Entry>, params: seq<Entry>, net: Net) returns (o: Outcome)
      ensures o == Operations.Perform(Snapshot(), Operations.ConsultaExtrato(dados, params), net)
    {
      o := Run(Operations.ConsultaExtrato(dados, params), net);
    }

    method CadastraEmpresa(data: seq<Entry>, params: seq<Entry>, net: Net) returns (o: Outcome)
      ensures o == Operations.Perform(Snapshot(), Operations.CadastraEmpresa(data, params), net)
    {
      o := RunChecked(data, EmpresaRules(),
        Operations.Send(Operations.Step(POST, "accounts", Only(data, EmpresaFields), Values(params)), Operations.ErrorsOtherwise, false), net);
    }

    method EnviaDocumento(data: seq<Entry>, params: seq<Entry>, net: Net) returns (o: Outcome)
      ensures o == Operations.Perform(Snapshot(), Operations.EnviaDocumento(data, params), net)
    {
      o := RunChecked(data, DocumentoRules(),
        Operations.Send(Operations.Step(POST, "documents", Only(data, DocumentoFields), Values(params)), Operations.EnviaDocumentoHandling, false), net);
    }

    method ConsultaStatusEmpresa(params: seq<Entry>, net: Net) returns (o: Outcome)
      ensures o == Operations.Perform(Snapshot(), Operations.ConsultaStatusEmpresa(params), net)
    {
      o := Run(Operations.ConsultaStatusEmpresa(params), net);
    }

    method ConsultaDadosComerciais(params: seq<Entry>, net: Net) returns (o: Outcome)
      ensures o == Operations.Perform(Snapshot(), Operations.ConsultaDadosComerciais(params), net)
    {
      o := Run(Operations.ConsultaDadosComerciais(params), net);
    }

    method ConsultaStatusDocumentos(params: seq<Entry>, net: Net) returns (o: Outcome)
      ensures o == Operations.Perform(Snapshot(), Operations.ConsultaStatusDocumentos(params), net)
    {
      o := Run(Operations.ConsultaStatusDocumentos(params), net);
    }

    method BuscaDocumentos(params: seq<Entry>, net: Net) returns (o: Outcome)
      ensures o == Operations.Perform(Snapshot(), Operations.BuscaDocumentos(params), net)
    {
      o := Run(Operations.BuscaDocumentos(params), net);
    }

    method ListaEmpresas(params: seq<Entry>, net: Net) returns (o: Outcome)
      ensures o == Operations.Perform(Snapshot(), Operations.ListaEmpresas(params), net)
    {
      o := Run(Operations.ListaEmpresas(params), net);
    }

    method CadastraCliente(data: seq<Entry>, params: seq<Entry>, net: Net) returns (o: Outcome)
      ensures o == Operations.Perform(Snapshot(), Operations.CadastraCliente(data, params), net)
    {
      o := RunChecked(data, ClienteRules(),
        Operations.Send(Operations.Step(POST, "customers", Only(data, ClienteFields), Values(params)), Operations.ErrorsOtherwise, false), net);
    }

    method BuscaCliente(id: string, params: seq<Entry>, net: Net) returns (o: Outcome)
      ensures o == Operations.Perform(Snapshot(), Operations.BuscaCliente(id, params), net)
    {
      o := Run(Operations.BuscaCliente(id, params), net);
    }

    method ListaClientes(params: seq<Entry>, net: Net) returns (o: Outcome)
      ensures o == Operations.Perform(Snapshot(), Operations.ListaClientes(params), net)
    {
      o := Run(Operations.ListaClientes(params), net);
    }

    method AtualizaCliente(id: string, data: seq<Entry>, params: seq<Entry>, net: Net) returns (o: Outcome)
      ensures o == Operations.Perform(Snapshot(), Operations.AtualizaCliente(id, data, params), net)
    {
      o := RunChecked(data, AtualizaClienteRules(),
        Operations.Send(Operations.Step(POST, "customers/" + id, Only(data, ClienteFields), Values(params)), PassThrough, false), net);
    }

    method GeraCobranca(data: seq<Entry>, params: seq<Entry>, net: Net) returns (o: Outcome)
      ensures o == Operations.Perform(Snapshot(), Operations.GeraCobranca(data, params), net)
    {
      o := RunChecked(data, CobrancaRules(),
        Operations.Send(Operations.Step(POST, "payments", Only(data, CobrancaFields), Values(params)), Operations.ErrorsOtherwise, false), net);
    }

    method GeraCobrancaCartaoCredito(data: seq<Entry>, params: seq<Entry>, net: Net) returns (o: Outcome)
      ensures o == Operations.Perform(Snapshot(), Operations.GeraCobrancaCartaoCredito(data, params), net)
    {
      o := RunChecked(data, CartaoRules(),
        Operations.Send(Operations.Step(POST, "payments", Only(Assign(data, "billingType", Str("CREDIT_CARD")), CartaoFields), Values(params)), Operations.ErrorsOtherwise, false), net);
    }

    method BuscaCobranca(id: string, params: seq<Entry>, net: Net) returns (o: Outcome)
      ensures o == Operations.Perform(Snapshot(), Operations.BuscaCobranca(id, params), net)
    {
      o := Run(Operations.BuscaCobranca(id, params), net);
    }

    method ListaCobrancas(dados: seq<Entry>, params: seq<Entry>, net: Net) returns (o: Outcome)
      ensures o == Operations.Perform(Snapshot(), Operations.ListaCobrancas(dados, params), net)
    {
      o := Run(Operations.ListaCobrancas(dados, params), net);
    }

    method AtualizaCobranca(id: string, data: seq<Entry>, params: seq<Entry>, net: Net) returns (o: Outcome)
      ensures o == Operations.Perform(Snapshot(), Operations.AtualizaCobranca(id, data, params), net)
    {
      o := RunChecked(data, AtualizaCobrancaRules(),
        Operations.Send(Operations.Step(POST, "payments/" + id, Only(data, CobrancaFields), Values(params)), Operations.AtualizaCobrancaHandling, false), net);
    }

    method SimulaAntecipacaoCobranca(id: string, net: Net) returns (o: Outcome)
      ensures o == Operations.Perform(Snapshot(), Operations.SimulaAntecipacaoCobranca(id), net)
    {
      o := Run(Operations.SimulaAntecipacaoCobranca(id), net);
    }

    /**
     * `antecipacaoCobranca` turns upload mode on once its checks pass, so the
     * anticipation goes out as form fields; the mode stays on for every later
     * request of this client.
     */
    method AntecipacaoCobranca(dados: seq<Entry>, net: Net) returns (o: Outcome)
      modifies this
      ensures o == Operations.Perform(old(Snapshot()), Operations.AntecipacaoCobranca(dados), net)
      ensures Snapshot() == Operations.ConfigAfter(old(Snapshot()), Operations.AntecipacaoCobranca(dados))
    {
      var errors := Validate(dados, AntecipacaoRules());
      if errors != [] {
        o := Thrown(Join(errors, Crlf));
        return;
      }
      SetUpload(true);
      o := Run(Operations.Send(Operations.Step(POST, "anticipations/", Operations.AntecipacaoBody(dados), []),
                               Operations.AntecipacaoHandling, true), net);
    }

    method BuscaAntecipacaoCobranca(id: string, net: Net) returns (o: Outcome)
      ensures o == Operations.Perform(Snapshot(), Operations.BuscaAntecipacaoCobranca(id), net)
    {
      o := Run(Operations.BuscaAntecipacaoCobranca(id), net);
    }

    method EstornaCobranca(id: string, params: seq<Entry>, net: Net) returns (o: Outcome)
      ensures o == Operations.Perform(Snapshot(), Operations.EstornaCobranca(id, params), net)
    {
      o := Run(Operations.EstornaCobranca(id, params), net);
    }

    method RemoveCobranca(id: string, params: seq<Entry>, net: Net) returns (o: Outcome)
      ensures o == Operations.Perform(Snapshot(), Operations.RemoveCobranca(id, params), net)
    {
      o := Run(Operations.RemoveCobranca(id, params), net);
    }

    method ConfirmaRecebimentoDinheiro(id: string, data: seq<Entry>, params: seq<Entry>, net: Net) returns (o: Outcome)
      ensures o == Operations.Perform(Snapshot(), Operations.ConfirmaRecebimentoDinheiro(id, data, params), net)
    {
      o := RunChecked(data, ConfirmaRecebimentoRules(),
        Operations.Send(Operations.Step(POST, "payments/" + id + "/receiveInCash", Only(data, ConfirmaRecebimentoFields), Values(params)), Operations.ConfirmaRecebimentoHandling, false), net);
    }

    method GeraCobrancaParcelada(data: seq<Entry>, params: seq<Entry>, net: Net) returns (o: Outcome)
      ensures o == Operations.Perform(Snapshot(), Operations.GeraCobrancaParcelada(data, params), net)
    {
      o := RunChecked(data, ParceladaRules(),
        Operations.Send(Operations.Step(POST, "payments", Only(data, ParceladaFields), Values(params)), Operations.ErrorsOtherwise, false), net);
    }

    method BuscaParcelamento(id: string, params: seq<Entry>, net: Net) returns (o: Outcome)
      ensures o == Operations.Perform(Snapshot(), Operations.BuscaParcelamento(id, params), net)
    {
      o := Run(Operations.BuscaParcelamento(id, params), net);
    }

    method ListaParcelamentos(params: seq<Entry>, net: Net) returns (o: Outcome)
      ensures o == Operations.Perform(Snapshot(), Operations.ListaParcelamentos(params), net)
    {
      o := Run(Operations.ListaParcelamentos(params), net);
    }

    method EstornaParcelamento(id: string, params: seq<Entry>, net: Net) returns (o: Outcome)
      ensures o == Operations.Perform(Snapshot(), Operations.EstornaParcelamento(id, params), net)
    {
      o := Run(Operations.EstornaParcelamento(id, params), net);
    }

    method GeraAssinatura(data: seq<Entry>, params: seq<Entry>, net: Net) returns (o: Outcome)
      ensures o == Operations.Perform(Snapshot(), Operations.GeraAssinatura(data, params), net)
    {
      o := RunChecked(data, AssinaturaRules(),
        Operations.Subscribe(Operations.Step(POST, "subscriptions", Only(data, AssinaturaFields), Values(params))), net);
    }

    method BuscaAssinatura(id: string, params: seq<Entry>, net: Net) returns (o: Outcome)
      ensures o == Operations.Perform(Snapshot(), Operations.BuscaAssinatura(id, params), net)
    {
      o := Run(Operations.BuscaAssinatura(id, params), net);
    }

    method ListaAssinaturas(params: seq<Entry>, net: Net) returns (o: Outcome)
      ensures o == Operations.Perform(Snapshot(), Operations.ListaAssinaturas(params), net)
    {
      o := Run(Operations.ListaAssinaturas(params), net);
    }

    method ListaCobrancasAssinatura(id: string, params: seq<Entry>, net: Net) returns (o: Outcome)
      ensures o == Operations.Perform(Snapshot(), Operations.ListaCobrancasAssinatura(id, params), net)
    {
      o := Run(Operations.ListaCobrancasAssinatura(id, params), net);
    }

    method AtualizaAssinatura(id: string, data: seq<Entry>, params: seq<Entry>, net: Net) returns (o: Outcome)
      ensures o == Operations.Perform(Snapshot(), Operations.AtualizaAssinatura(id, data, params), net)
    {
      o := RunChecked(data, AtualizaAssinaturaRules(),
        Operations.Send(Operations.Step(POST, "subscriptions/" + id, Only(data, AtualizaAssinaturaFields), Values(params)), Operations.ErrorsOtherwise, false), net);
    }

    method GeraPagamento(data: seq<Entry>, params: seq<Entry>, net: Net) returns (o: Outcome)
      ensures o == Operations.Perform(Snapshot(), Operations.GeraPagamento(data, params), net)
    {
      o := RunChecked(data, GeraPagamentoRules(),
        Operations.Send(Operations.Step(POST, "bill", Only(data, GeraPagamentoFields), Values(params)), Operations.ErrorsOr(Operations.TryLaterPlain("gerar o pagamento")), false), net);
    }

    method SimulaPagamento(data: seq<Entry>, params: seq<Entry>, net: Net) returns (o: Outcome)
      ensures o == Operations.Perform(Snapshot(), Operations.SimulaPagamento(data, params), net)
    {
      o := RunChecked(data, SimulaPagamentoRules(),
        Operations.Send(Operations.Step(POST, "bill/simulate", Only(data, SimulaPagamentoFields), Values(params)), Operations.ErrorsOr(Operations.TryLaterPlain("simular o pagamento")), false), net);
    }

    method BuscaPagamento(id: string, params: seq<Entry>, net: Net) returns (o: Outcome)
      ensures o == Operations.Perform(Snapshot(), Operations.BuscaPagamento(id, params), net)
    {
      o := Run(Operations.BuscaPagamento(id, params), net);
    }

    method ListaPagamentos(params: seq<Entry>, net: Net) returns (o: Outcome)
      ensures o == Operations.Perform(Snapshot(), Operations.ListaPagamentos(params), net)
    {
      o := Run(Operations.ListaPagamentos(params), net);
    }

    method CancelaPagamento(id: string, params: seq<Entry>, net: Net) returns (o: Outcome)
      ensures o == Operations.Perform(Snapshot(), Operations.CancelaPagamento(id, params), net)
    {
      o := Run(Operations.CancelaPagamento(id, params), net);
    }

    method TransfereOutroBanco(data: seq<Entry>, params: seq<Entry>, net: Net) returns (o: Outcome)
      ensures o == Operations.Perform(Snapshot(), Operations.TransfereOutroBanco(data, params), net)
    {
      o := RunChecked(data, TransfereRules(),
        Operations.Send(Operations.Step(POST, "transfers", Only(data, TransfereFields), Values(params)), Operations.ErrorsOr(Operations.TryLaterPlain("realizar a transferência")), false), net);
    }

    method ListaTransferencias(params: seq<Entry>, net: Net) returns (o: Outcome)
      ensures o == Operations.Perform(Snapshot(), Operations.ListaTransferencias(params), net)
    {
      o := Run(Operations.ListaTransferencias(params), net);
    }

    method BuscaTransferencia(id: string, params: seq<Entry>, net: Net) returns (o: Outcome)
      ensures o == Operations.Perform(Snapshot(), Operations.BuscaTransferencia(id, params), net)
    {
      o := Run(Operations.BuscaTransferencia(id, params), net);
    }

    method ListaBancos(params: seq<Entry>, net: Net) returns (o: Outcome)
      ensures o == Operations.Perform(Snapshot(), Operations.ListaBancos(params), net)
    {
      o := Run(Operations.ListaBancos(params), net);
    }

    method ListaContas(params: seq<Entry>, net: Net) returns (o: Outcome)
      ensures o == Operations.Perform(Snapshot(), Operations.ListaContas(params), net)
    {
      o := Run(Operations.ListaContas(params), net);
    }
  }
}
