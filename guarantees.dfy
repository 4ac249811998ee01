/**
 * What the operations promise, proved about their plans: checks come before
 * any request, bodies are whitelisted with values unchanged, and each status
 * table maps statuses to the outcomes the client's code gives them,
 * including its quirks.
 */
module Guarantees {
  import opened Strings
  import opened PhpValues
  import opened Engine
  import opened Rules
  import opened Filters
  import opened Responses
  import opened Operations

  // ------------------------------------------------------- checks first

  /**
   * A plan whose checks fail throws their messages joined by "\r\n", and
   * sends nothing: the outcome is the same whatever the network does.
   */
  lemma RejectedBeforeRequest(c: Config, data: seq<Entry>, rules: seq<Rule>, next: Plan, net1: Net, net2: Net)
    requires CheckAll(data, rules) != []
    ensures Perform(c, Checked(data, rules, next), net1) == Thrown(Join(CheckAll(data, rules), Crlf))
    ensures Perform(c, Checked(data, rules, next), net1) == Perform(c, Checked(data, rules, next), net2)
    ensures ConfigAfter(c, Checked(data, rules, next)) == c
  {
  }

  /**
   * `cadastraCliente` requires a name and a CPF/CNPJ, reporting the missing
   * ones in that order; once both are there it posts the input restricted to
   * its whitelist, every kept field with its value unchanged.
   */
  lemma CadastraClienteContract(data: seq<Entry>, params: seq<Entry>)
    ensures CheckAll(data, ClienteRules()) ==
      (if Missing(At(data, "name")) then [ClienteNameMessage] else []) +
      (if Missing(At(data, "cpfCnpj")) then [ClienteCpfCnpjMessage] else [])
    ensures !Missing(At(data, "name")) && !Missing(At(data, "cpfCnpj")) ==>
      var p := CadastraCliente(data, params);
      p.Send? && p.step.verb == POST && p.step.path == "customers" && p.step.filters == Values(params) &&
      forall k :: At(p.step.body, k) == if k in ClienteFields then At(data, k) else Null
  {
    if !Missing(At(data, "name")) && !Missing(At(data, "cpfCnpj")) {
      var body := Only(data, ClienteFields);
      forall k ensures At(body, k) == if k in ClienteFields then At(data, k) else Null {
        OnlyAt(data, ClienteFields, k);
      }
    }
  }

  /**
   * `cadastraEmpresa` only objects to fields that are present but empty: it
   * sends the request exactly when none of its nine fields is blank, so an
   * input that leaves them all out is accepted.
   */
  lemma CadastraEmpresaBlankOnly(data: seq<Entry>, params: seq<Entry>)
    ensures CadastraEmpresa(data, params).Send? <==>
      forall i :: 0 <= i < |EmpresaRules()| ==> !Blank(At(data, EmpresaRules()[i].field))
    ensures (forall i :: 0 <= i < |EmpresaRules()| ==> At(data, EmpresaRules()[i].field) == Null) ==>
      CadastraEmpresa(data, params).Send?
  {
    NotBlankChecked(data, EmpresaRules(), Send(Step(POST, "accounts", Only(data, EmpresaFields), Values(params)), ErrorsOtherwise, false));
  }

  /** A table of presence-but-blank tests passes exactly when none of its fields is blank. */
  lemma NotBlankChecked(data: seq<Entry>, rules: seq<Rule>, next: Plan)
    requires forall i :: 0 <= i < |rules| ==> rules[i].NotBlank?
    ensures Checked(data, rules, next).Send? <==> next.Send? && forall i :: 0 <= i < |rules| ==> !Blank(At(data, rules[i].field))
  {
    SimpleTable(data, rules);
  }

  /** `simulaAntecipacaoCobranca` refuses an empty identifier, "0" included, before any request. */
  lemma SimulaAntecipacaoNeedsId(id: string)
    ensures SimulaAntecipacaoCobranca(id).Reject? <==> id == "" || id == "0"
    ensures SimulaAntecipacaoCobranca(id).Reject? ==> SimulaAntecipacaoCobranca(id).errors == [NoPaymentId]
    ensures SimulaAntecipacaoCobranca(id).Send? ==>
      SimulaAntecipacaoCobranca(id).step.body == [Entry(StrKey("payment"), Str(id))]
  {
  }

  /** `buscaAntecipacaoCobranca` likewise refuses an empty identifier. */
  lemma BuscaAntecipacaoNeedsId(id: string)
    ensures BuscaAntecipacaoCobranca(id).Reject? <==> id == "" || id == "0"
    ensures BuscaAntecipacaoCobranca(id).Send? ==> BuscaAntecipacaoCobranca(id).step.path == "anticipations/" + id
  {
  }

  /**
   * Updating a subscription with a card always fails: its holder test holds
   * of every value, so the holder message is reported whenever `creditCard`
   * is set, and no request is made.
   */
  lemma AtualizaAssinaturaCardRejected(id: string, data: seq<Entry>, params: seq<Entry>)
    requires IsSet(At(data, "creditCard"))
    ensures FieldRequired("creditCardHolderInfo") + InstallmentSuffix in CheckAll(data, AtualizaAssinaturaRules())
    ensures AtualizaAssinatura(id, data, params).Reject?
  {
    var card := AtualizaCardRules();
    var holder := card[1];
    SetOrEmptyAlwaysFails(data, holder.field, holder.message);
    MiddleReported(data, card[0], holder, card[2]);
    assert card == [card[0], holder, card[2]];
    PresentReported(data, "creditCard", card, holder.message);
    ReportedLater(data, AssinaturaHead(), [IfPresent("creditCard", card)], holder.message);
  }

  /** The messages of rules guarded by a field that is set are reported. */
  lemma PresentReported(data: seq<Entry>, f: string, rules: seq<Rule>, m: string)
    requires IsSet(At(data, f)) && m in CheckAll(data, rules)
    ensures m in CheckAll(data, [IfPresent(f, rules)])
  {
    assert [IfPresent(f, rules)][1..] == [];
  }

  /** The message of a failing simple rule in the middle of three is reported. */
  lemma MiddleReported(data: seq<Entry>, r0: Rule, r1: Rule, r2: Rule)
    requires Simple(r1) && Fails(data, r1)
    ensures r1.message in CheckAll(data, [r0, r1, r2])
  {
    var rules := [r0, r1, r2];
    assert rules[1..] == [r1, r2] && rules[1..][1..] == [r2];
    assert CheckAll(data, rules) == Check(data, r0) + (Check(data, r1) + CheckAll(data, [r2]));
  }

  /** A message of the later table is a message of the two tables together. */
  lemma ReportedLater(data: seq<Entry>, head: seq<Rule>, tail: seq<Rule>, m: string)
    requires m in CheckAll(data, tail)
    ensures m in CheckAll(data, head + tail)
  {
    CheckAllAppend(data, head, tail);
  }

  // ---------------------------------------------------------- the bodies

  /** `geraCobrancaCartaoCredito` always bills by credit card, whatever the input says; the other fields are whitelisted unchanged. */
  lemma CartaoForcesBillingType(data: seq<Entry>, params: seq<Entry>, k: string)
    requires GeraCobrancaCartaoCredito(data, params).Send?
    ensures At(GeraCobrancaCartaoCredito(data, params).step.body, "billingType") == Str("CREDIT_CARD")
    ensures k != "billingType" ==>
      At(GeraCobrancaCartaoCredito(data, params).step.body, k) == if k in CartaoFields then At(data, k) else Null
  {
    var withType := Assign(data, "billingType", Str("CREDIT_CARD"));
    OnlyAt(withType, CartaoFields, "billingType");
    AssignAt(data, "billingType", Str("CREDIT_CARD"), "billingType");
    OnlyAt(withType, CartaoFields, k);
    AssignAt(data, "billingType", Str("CREDIT_CARD"), k);
  }

  /**
   * `simulaPagamento` accepts a bar code in place of the identification
   * field, but never forwards it: its whitelist names `barCado`.
   */
  lemma SimulaPagamentoDropsBarCode(data: seq<Entry>, params: seq<Entry>)
    ensures !Missing(At(data, "barCode")) ==> SimulaPagamento(data, params).Send?
    ensures SimulaPagamento(data, params).Send? ==> At(SimulaPagamento(data, params).step.body, "barCode") == Null
  {
    OnlyAt(data, SimulaPagamentoFields, "barCode");
  }

  /**
   * `antecipacaoCobranca` switches upload mode on once its checks pass, and
   * the request then goes out as multipart form fields; the mode stays on.
   */
  lemma AntecipacaoUploadSticky(c: Config, dados: seq<Entry>)
    ensures ConfigAfter(c, AntecipacaoCobranca(dados)).upload <==> c.upload || CheckAll(dados, AntecipacaoRules()) == []
    ensures CheckAll(dados, AntecipacaoRules()) == [] ==>
      var c' := ConfigAfter(c, AntecipacaoCobranca(dados));
      Headers(c')[1] == MultipartContentType &&
      PayloadFor(c', POST, AntecipacaoBody(dados)) == FormPayload(AntecipacaoBody(dados))
  {
  }

  /** The anticipation body carries the signature and the payment, and a document part only when one is given. */
  lemma AntecipacaoBodyFields(dados: seq<Entry>)
    ensures At(AntecipacaoBody(dados), "agreementSignature") == At(dados, "solicitante")
    ensures At(AntecipacaoBody(dados), "payment") == At(dados, "cobranca")
    ensures At(AntecipacaoBody(dados), "documents").File? <==> !Missing(At(dados, "documento"))
  {
    var base := [Entry(StrKey("agreementSignature"), At(dados, "solicitante")), Entry(StrKey("payment"), At(dados, "cobranca"))];
    assert base[1..] == [Entry(StrKey("payment"), At(dados, "cobranca"))];
    assert base[1..][1..] == [];
    var doc := At(dados, "documento");
    var file := File(Field(doc, "path"), Field(doc, "type"), Field(doc, "name"));
    AssignAt(base, "documents", file, "agreementSignature");
    AssignAt(base, "documents", file, "payment");
    AssignAt(base, "documents", file, "documents");
  }

  // ------------------------------------------------------- status tables

  /** A plan that is sent answers with its table applied to the envelope the call produced. */
  lemma SendResponds(c: Config, step: Step, h: Handling, upload: bool, net: Net, env: Envelope)
    requires Call(ConfigAfter(c, Send(step, h, upload)), step.verb, step.path, step.body, step.filters, [], net) == Ok(env)
    ensures Perform(c, Send(step, h, upload), net) == Respond(env, h)
  {
  }

  /** Operations without a table hand back every envelope. */
  lemma PassThroughReturns(c: Config, step: Step, net: Net, env: Envelope)
    requires Call(c, step.verb, step.path, step.body, step.filters, [], net) == Ok(env)
    ensures Perform(c, Send(step, PassThrough, false), net) == Returned(env)
  {
  }

  /**
   * `buscaCliente`: 200 returns the envelope, 404 and 401 have their own
   * messages, and any other status the generic one.
   */
  lemma BuscaClienteStatuses(c: Config, id: string, params: seq<Entry>, net: Net, env: Envelope)
    requires Call(c, GET, "customers/" + id, [], Values(params), [], net) == Ok(env)
    ensures Perform(c, BuscaCliente(id, params), net) ==
      if env.httpCode == 200 then Returned(env)
      else if env.httpCode == 404 then Thrown("Cliente não encontrado")
      else if env.httpCode == 401 then Thrown(NoCommunication)
      else Thrown(TryLater("buscar o cliente"))
  {
    SendResponds(c, Step(GET, "customers/" + id, [], Values(params)), BuscaClienteHandling, false, net, env);
    var tests := BuscaClienteHandling.tests;
    var fallback := BuscaClienteHandling.fallback;
    assert tests[1..] == [FailOn(401, NoCommunication)];
    assert tests[1..][1..] == [];
    assert Apply(env, tests[1..][1..], fallback) == Thrown(TryLater("buscar o cliente"));
    assert Apply(env, tests[1..], fallback) ==
      if env.httpCode == 401 then Thrown(NoCommunication) else Thrown(TryLater("buscar o cliente"));
  }

  /** `atualizaCliente` returns whatever envelope comes back, whatever its status. */
  lemma AtualizaClienteReturnsAll(c: Config, id: string, data: seq<Entry>, params: seq<Entry>, net: Net, env: Envelope)
    requires CheckAll(data, AtualizaClienteRules()) == []
    requires Call(c, POST, "customers/" + id, Only(data, ClienteFields), Values(params), [], net) == Ok(env)
    ensures Perform(c, AtualizaCliente(id, data, params), net) == Returned(env)
  {
    SendResponds(c, Step(POST, "customers/" + id, Only(data, ClienteFields), Values(params)), PassThrough, false, net, env);
  }

  /** `atualizaCobranca` answers a 400 with the status and the error descriptions instead of throwing. */
  lemma AtualizaCobrancaOn400(c: Config, id: string, data: seq<Entry>, params: seq<Entry>, net: Net, env: Envelope)
    requires CheckAll(data, AtualizaCobrancaRules()) == []
    requires Call(c, POST, "payments/" + id, Only(data, CobrancaFields), Values(params), [], net) == Ok(env)
    requires env.httpCode == 400
    ensures Perform(c, AtualizaCobranca(id, data, params), net) ==
      match Descriptions(env.body)
      case Ok(descs) => ReturnedErrors(400, descs)
      case Fatal => Crashed
  {
    var step := Step(POST, "payments/" + id, Only(data, CobrancaFields), Values(params));
    assert AtualizaCobranca(id, data, params) == Send(step, AtualizaCobrancaHandling, false);
    SendResponds(c, step, AtualizaCobrancaHandling, false, net, env);
    AtualizaCobrancaTable400(env);
  }

  /** The update table on a 400: the descriptions come back, or the script crashes when there is no list. */
  lemma AtualizaCobrancaTable400(env: Envelope)
    requires env.httpCode == 400
    ensures Respond(env, AtualizaCobrancaHandling) ==
      match Descriptions(env.body)
      case Ok(descs) => ReturnedErrors(400, descs)
      case Fatal => Crashed
  {
    var tests := AtualizaCobrancaHandling.tests;
    assert tests[0] == ErrorListOn(400);
  }

  /** `confirmaRecebimentoDinheiro` returns the envelope of a 400 reply as if it had succeeded. */
  lemma ConfirmaRecebimentoOn400(c: Config, id: string, data: seq<Entry>, params: seq<Entry>, net: Net, env: Envelope)
    requires CheckAll(data, ConfirmaRecebimentoRules()) == []
    requires Call(c, POST, "payments/" + id + "/receiveInCash", Only(data, ConfirmaRecebimentoFields), Values(params), [], net) == Ok(env)
    requires env.httpCode == 400
    ensures Perform(c, ConfirmaRecebimentoDinheiro(id, data, params), net) == Returned(env)
  {
    SendResponds(c, Step(POST, "payments/" + id + "/receiveInCash", Only(data, ConfirmaRecebimentoFields), Values(params)),
                 ConfirmaRecebimentoHandling, false, net, env);
  }

  /**
   * The operations that throw the descriptions without looking at them
   * crash on a failed reply that carries no `errors` list.
   */
  lemma ErrorsOtherwiseNeedsErrors(env: Envelope)
    requires env.httpCode != 200 && !BodyProp(env.body, "errors").JArr?
    ensures Respond(env, ErrorsOtherwise) == Crashed
  {
  }

  /**
   * `buscaCobranca` falls back to its generic message when the API reports
   * an empty `errors` list, and throws the descriptions when there are some.
   */
  lemma BuscaCobrancaErrors(env: Envelope, items: seq<Json>)
    requires env.httpCode != 200 && env.httpCode != 404 && env.httpCode != 401
    requires BodyProp(env.body, "errors") == JArr(items)
    ensures items == [] ==>
      Respond(env, BuscaCobrancaHandling) == Thrown(TryLater("buscar a cobrança Asaas"))
    ensures items != [] ==> Respond(env, BuscaCobrancaHandling) == RaiseErrors(env)
  {
    var tests := BuscaCobrancaHandling.tests;
    var fallback := BuscaCobrancaHandling.fallback;
    assert tests[1..] == [FailOn(401, NoCommunication), FailWithErrorsIfAny];
    assert tests[1..][1..] == [FailWithErrorsIfAny];
    assert tests[1..][1..][1..] == [];
    var last := Apply(env, tests[1..][1..][1..], fallback);
    assert last == Thrown(TryLater("buscar a cobrança Asaas"));
    assert Descriptions(env.body).Ok? && (Descriptions(env.body).value == [] <==> items == []);
    assert Apply(env, tests[1..][1..], fallback) == if items == [] then last else RaiseErrors(env);
    assert Apply(env, tests[1..], fallback) == Apply(env, tests[1..][1..], fallback);
    assert Apply(env, tests, fallback) == Apply(env, tests[1..], fallback);
  }

  /** `enviaDocumento` throws the envelope itself when the API gives no errors and the status is not 403. */
  lemma EnviaDocumentoFallback(env: Envelope)
    requires env.httpCode != 200 && env.httpCode != 403 && BodyProp(env.body, "errors") == JNull
    ensures Respond(env, EnviaDocumentoHandling) == ThrownEnvelope(env)
  {
    var tests := EnviaDocumentoHandling.tests;
    var fallback := EnviaDocumentoHandling.fallback;
    assert tests[1..] == [FailOn(403, "Requisição não autorizada")];
    assert tests[1..][1..] == [];
    assert Apply(env, tests[1..][1..], fallback) == ThrownEnvelope(env);
    assert Apply(env, tests[1..], fallback) == ThrownEnvelope(env);
  }

  /**
   * `geraAssinatura` lists the new subscription's payments only after the
   * creation succeeded, filtering by the identifier the API gave it; a
   * failed creation throws its own errors.
   */
  lemma GeraAssinaturaSteps(c: Config, data: seq<Entry>, params: seq<Entry>, net: Net, env: Envelope)
    requires CheckAll(data, AssinaturaRules()) == []
    requires Call(c, POST, "subscriptions", Only(data, AssinaturaFields), Values(params), [], net) == Ok(env)
    ensures env.httpCode != 200 ==> Perform(c, GeraAssinatura(data, params), net) == RaiseErrors(env)
    ensures env.httpCode == 200 ==> Perform(c, GeraAssinatura(data, params), net) == SubscriptionPayments(c, env, net)
  {
    var step := Step(POST, "subscriptions", Only(data, AssinaturaFields), Values(params));
    assert GeraAssinatura(data, params) == Subscribe(step);
    SubscribeSteps(c, step, net, env);
  }

  /** A subscription plan goes on to the payments listing exactly when its first request answers 200. */
  lemma SubscribeSteps(c: Config, step: Step, net: Net, env: Envelope)
    requires Call(c, step.verb, step.path, step.body, step.filters, [], net) == Ok(env)
    ensures env.httpCode != 200 ==> Perform(c, Subscribe(step), net) == RaiseErrors(env)
    ensures env.httpCode == 200 ==> Perform(c, Subscribe(step), net) == SubscriptionPayments(c, env, net)
  {
  }

  /** The payments of a created subscription are asked for with the single query pair `subscription=<id>`. */
  lemma SubscriptionQuery(created: Envelope, sid: string)
    requires BodyProp(created.body, "id") == JStr(sid) && !IsEmpty(Str(sid))
    ensures Pairs([SubscriptionFilter(created)]) == Ok([("subscription", sid)])
  {
    FilterPair("subscription", sid);
    var none: seq<Value> := [];
    assert Pairs(none) == Ok([]);
    PairsAppend(none, SubscriptionFilter(created), ("subscription", sid));
    assert none + [SubscriptionFilter(created)] == [SubscriptionFilter(created)];
    assert [] + [("subscription", sid)] == [("subscription", sid)];
  }

  /**
   * `buscaAntecipacaoCobranca` tests `errors` before the 404: a 404 that
   * carries an `errors` member throws the descriptions, and only a 404
   * without one throws the not-found message.
   */
  lemma BuscaAntecipacaoErrorsFirst(env: Envelope)
    requires env.httpCode == 404
    ensures BodyProp(env.body, "errors") != JNull ==> Respond(env, BuscaAntecipacaoHandling) == RaiseErrors(env)
    ensures BodyProp(env.body, "errors") == JNull ==>
      Respond(env, BuscaAntecipacaoHandling) == Thrown("Antecipação não encontrada")
  {
    var tests := BuscaAntecipacaoHandling.tests;
    var fallback := BuscaAntecipacaoHandling.fallback;
    assert tests[1..] == [FailOn(404, "Antecipação não encontrada")];
    assert tests[1..][1..] == [];
    assert Apply(env, tests[1..], fallback) == Thrown("Antecipação não encontrada");
  }

  /** `estornaParcelamento` answers a 404 with the plural "Parcelamentos não encontrados". */
  lemma EstornaParcelamentoNotFound(c: Config, id: string, params: seq<Entry>, net: Net, env: Envelope)
    requires Call(c, POST, "installments/" + id + "/refund", params, [], [], net) == Ok(env)
    requires env.httpCode == 404
    ensures Perform(c, EstornaParcelamento(id, params), net) == Thrown("Parcelamentos não encontrados")
  {
    var p := EstornaParcelamento(id, params);
    SendResponds(c, p.step, p.handling, false, net, env);
  }

  /** A path that does not start with '/' gets one in front of it. */
  lemma PlainPath(c: Config, path: string)
    requires |path| > 0 && path[0] != '/'
    ensures Url(c, path, []) == BaseUrl(c) + "/" + path
  {
  }

  /**
   * `buscaAssinatura` reads a subscription with a POST whose JSON body is
   * the caller's parameters, and sends no query string.
   */
  lemma BuscaAssinaturaSendsBody(c: Config, id: string, params: seq<Entry>)
    requires !c.upload
    ensures var s := BuscaAssinatura(id, params).step;
      Pairs(s.filters) == Ok([]) &&
      MakeRequest(c, s.verb, s.path, s.body, [], []) ==
        Request(POST, BaseUrl(c) + "/" + ("subscriptions/" + id), Headers(c), JsonPayload(params))
  {
    PlainPath(c, "subscriptions/" + id);
    assert Headers(c) + [] == Headers(c);
  }

  /**
   * `cancelaPagamento` sends the caller's parameters as the JSON body of the
   * cancellation, and no query string.
   */
  lemma CancelaPagamentoSendsBody(c: Config, id: string, params: seq<Entry>)
    requires !c.upload
    ensures var s := CancelaPagamento(id, params).step;
      Pairs(s.filters) == Ok([]) &&
      MakeRequest(c, s.verb, s.path, s.body, [], []) ==
        Request(POST, BaseUrl(c) + "/" + ("bill/" + id + "/cancel"), Headers(c), JsonPayload(params))
  {
    PlainPath(c, "bill/" + id + "/cancel");
    assert Headers(c) + [] == Headers(c);
  }
}
