/**
 * The operation catalogue of the client. Each operation is a plan: the
 * checks it runs on its input, the one request it sends (method, path, body
 * restricted to a whitelist, query filters) and its status table.
 * `Perform` says what a plan yields against a configuration and the network.
 */
module Operations {
  import opened Strings
  import opened PhpValues
  import opened Engine
  import opened Rules
  import opened Filters
  import opened Responses

  /** One request as an operation issues it, before the engine adds URL, headers and query. */
  datatype Step = Step(verb: HttpMethod, path: string, body: seq<Entry>, filters: seq<Value>)

  datatype Plan =
    /** the checks failed: an exception listing their messages, and no request */
    | Reject(errors: seq<string>)
    /** one request and the status table for its envelope; `upload` switches upload mode on first, for good */
    | Send(step: Step, handling: Handling, upload: bool)
    /** `geraAssinatura`: create the subscription, then list its payments */
    | Subscribe(step: Step)

  /** The checks of a table decide between rejecting and the plan that follows them. */
  function Checked(data: seq<Entry>, rules: seq<Rule>, next: Plan): (p: Plan)
    ensures CheckAll(data, rules) != [] ==> p == Reject(CheckAll(data, rules))
    ensures CheckAll(data, rules) == [] ==> p == next
  {
    var errors := CheckAll(data, rules);
    if errors != [] then Reject(errors) else next
  }

  /** The configuration in force once a plan has run. */
  function ConfigAfter(c: Config, p: Plan): (c': Config)
    ensures c' == c || c' == c.(upload := true)
    ensures c'.upload <==> c.upload || (p.Send? && p.upload)
  {
    if p.Send? && p.upload then c.(upload := true) else c
  }

  /** What the caller of `geraAssinatura` sees once the subscription is created. */
  function SubscriptionPayments(c: Config, created: Envelope, net: Net): Outcome
  {
    match Call(c, GET, "payments", [], [SubscriptionFilter(created)], [], net)
    case Fatal => Crashed
    case Ok(env) => if env.httpCode == 200 then Returned(env) else RaiseErrors(env)
  }

  /** `['name' => 'subscription', 'value' => $data['body']->id]` */
  function SubscriptionFilter(created: Envelope): Value
  {
    FilterOf("subscription", JsonToValue(BodyProp(created.body, "id")))
  }

  /** The outcome of a plan. */
  function Perform(c: Config, p: Plan, net: Net): (o: Outcome)
    ensures p.Reject? ==> o == Thrown(Join(p.errors, Crlf))
    ensures !p.Reject? && Pairs(p.step.filters).Fatal? ==> o == Crashed
    ensures p.Subscribe? && o.Returned? ==> o.envelope.httpCode == 200
  {
    match p
    case Reject(errors) => Thrown(Join(errors, Crlf))
    case Send(step, h, upload) =>
      (match Call(ConfigAfter(c, p), step.verb, step.path, step.body, step.filters, [], net)
       case Fatal => Crashed
       case Ok(env) => Respond(env, h))
    case Subscribe(step) =>
      match Call(c, step.verb, step.path, step.body, step.filters, [], net)
      case Fatal => Crashed
      case Ok(env) => if env.httpCode == 200 then SubscriptionPayments(c, env, net) else RaiseErrors(env)
  }

  // ------------------------------------------------------- status tables

  const NoCommunication := "Sem comunicação com o Asaas"
  const InternalError := "Ocorreu um erro interno"

  /** The fixed message of the operations that end with "tente novamente mais tarde!". */
  function TryLater(action: string): string
  {
    "Ocorreu um erro interno ao tentar " + action + ", tente novamente mais tarde!"
  }

  /** The same message without the final "!", as the bill and transfer operations write it. */
  function TryLaterPlain(action: string): string
  {
    "Ocorreu um erro interno ao tentar " + action + ", tente novamente mais tarde"
  }

  const ErrorsOtherwise := Handling([], FailWithErrors)

  const EnviaDocumentoHandling :=
    Handling([FailWithErrorsIfSet, FailOn(403, "Requisição não autorizada")], FailWithEnvelope)
  const BuscaClienteHandling :=
    Handling([FailOn(404, "Cliente não encontrado"), FailOn(401, NoCommunication)], Fail(TryLater("buscar o cliente")))
  const BuscaCobrancaHandling :=
    Handling([FailOn(404, "Cobrança não encontrada"), FailOn(401, NoCommunication), FailWithErrorsIfAny],
             Fail(TryLater("buscar a cobrança Asaas")))
  const AtualizaCobrancaHandling := Handling([ErrorListOn(400)], FailWithErrors)
  const AntecipacaoHandling := Handling([FailWithErrorsIfSet], Fail(InternalError))
  const BuscaAntecipacaoHandling :=
    Handling([FailWithErrorsIfSet, FailOn(404, "Antecipação não encontrada")], Fail(InternalError))
  const ConfirmaRecebimentoHandling :=
    Handling([ReturnOn(400), FailWithErrorsIfSet], Fail(TryLater("confirmar recebimento da cobrança")))

  /** Errors reported by the API when it sends some, a fixed message otherwise. */
  function ErrorsOr(message: string): Handling
  {
    Handling([FailWithErrorsIfSet], Fail(message))
  }

  /** A fixed message for 404, then as `ErrorsOr`. */
  function NotFoundThenErrorsOr(notFound: string, message: string): Handling
  {
    Handling([FailOn(404, notFound), FailWithErrorsIfSet], Fail(message))
  }

  /** A fixed message for 404, another for everything else. */
  function NotFoundOr(notFound: string, message: string): Handling
  {
    Handling([FailOn(404, notFound)], Fail(message))
  }

  // ------------------------------------------------------------ webhooks

  function CriaWebhook(params: seq<Entry>): Plan
  {
    Send(Step(POST, "webhooks", params, []), PassThrough, false)
  }

  function ListarWebhooks(): Plan
  {
    Send(Step(GET, "webhooks", [], []), PassThrough, false)
  }

  function RecuperaWebhook(id: string): Plan
  {
    Send(Step(GET, "webhooks/" + id, [], []), PassThrough, false)
  }

  function AtualizaWebhook(id: string, params: seq<Entry>): Plan
  {
    Send(Step(PUT, "webhooks/" + id, params, []), PassThrough, false)
  }

  function RemoveWebhook(id: string): Plan
  {
    Send(Step(DELETE, "webhooks/" + id, [], []), PassThrough, false)
  }

  // ------------------------------------------------------------- account

  function ConsultaSaldo(params: seq<Entry>): Plan
  {
    Send(Step(GET, "finance/getCurrentBalance", [], Values(params)), PassThrough, false)
  }

  function ConsultaExtrato(dados: seq<Entry>, params: seq<Entry>): Plan
  {
    Send(Step(GET, "financialTransactions", [], ExtratoFilters(dados, params)), PassThrough, false)
  }

  function CadastraEmpresa(data: seq<Entry>, params: seq<Entry>): Plan
  {
    Checked(data, EmpresaRules(),
      Send(Step(POST, "accounts", Only(data, EmpresaFields), Values(params)), ErrorsOtherwise, false))
  }

  function EnviaDocumento(data: seq<Entry>, params: seq<Entry>): Plan
  {
    Checked(data, DocumentoRules(),
      Send(Step(POST, "documents", Only(data, DocumentoFields), Values(params)), EnviaDocumentoHandling, false))
  }

  function ConsultaStatusEmpresa(params: seq<Entry>): Plan
  {
    Send(Step(GET, "myAccount/status", [], Values(params)), PassThrough, false)
  }

  function ConsultaDadosComerciais(params: seq<Entry>): Plan
  {
    Send(Step(GET, "myAccount/commercialInfo", [], Values(params)), PassThrough, false)
  }

  function ConsultaStatusDocumentos(params: seq<Entry>): Plan
  {
    Send(Step(GET, "myAccount/status/documentation", [], Values(params)), PassThrough, false)
  }

  function BuscaDocumentos(params: seq<Entry>): Plan
  {
    Send(Step(GET, "documents", [], Values(params)), PassThrough, false)
  }

  function ListaEmpresas(params: seq<Entry>): Plan
  {
    Send(Step(GET, "accounts", [], EmpresasFilters(params)), PassThrough, false)
  }

  // ----------------------------------------------------------- customers

  function CadastraCliente(data: seq<Entry>, params: seq<Entry>): Plan
  {
    Checked(data, ClienteRules(),
      Send(Step(POST, "customers", Only(data, ClienteFields), Values(params)), ErrorsOtherwise, false))
  }

  function BuscaCliente(id: string, params: seq<Entry>): Plan
  {
    Send(Step(GET, "customers/" + id, [], Values(params)), BuscaClienteHandling, false)
  }

  function ListaClientes(params: seq<Entry>): Plan
  {
    Send(Step(GET, "customers", [], ListFilters(params)), Handling([], Fail(TryLater("listar os clientes"))), false)
  }

  /** Returns whatever envelope comes back: the status tests after its `return` are never reached. */
  function AtualizaCliente(id: string, data: seq<Entry>, params: seq<Entry>): Plan
  {
    Checked(data, AtualizaClienteRules(),
      Send(Step(POST, "customers/" + id, Only(data, ClienteFields), Values(params)), PassThrough, false))
  }

  // ------------------------------------------------------------ payments

  function GeraCobranca(data: seq<Entry>, params: seq<Entry>): Plan
  {
    Checked(data, CobrancaRules(),
      Send(Step(POST, "payments", Only(data, CobrancaFields), Values(params)), ErrorsOtherwise, false))
  }

  /** The billing type is forced to CREDIT_CARD before the whitelist. */
  function GeraCobrancaCartaoCredito(data: seq<Entry>, params: seq<Entry>): Plan
  {
    Checked(data, CartaoRules(),
      Send(Step(POST, "payments", Only(Assign(data, "billingType", Str("CREDIT_CARD")), CartaoFields), Values(params)),
           ErrorsOtherwise, false))
  }

  function BuscaCobranca(id: string, params: seq<Entry>): Plan
  {
    Send(Step(GET, "payments/" + id, [], Values(params)), BuscaCobrancaHandling, false)
  }

  function ListaCobrancas(dados: seq<Entry>, params: seq<Entry>): Plan
  {
    Send(Step(GET, "payments", [], CobrancasFilters(dados, params)),
         Handling([], Fail(TryLater("listar as cobranças"))), false)
  }

  function AtualizaCobranca(id: string, data: seq<Entry>, params: seq<Entry>): Plan
  {
    Checked(data, AtualizaCobrancaRules(),
      Send(Step(POST, "payments/" + id, Only(data, CobrancaFields), Values(params)), AtualizaCobrancaHandling, false))
  }

  const NoPaymentId := "Não informado ID da cobrança a ser antecipada"

  function SimulaAntecipacaoCobranca(id: string): Plan
  {
    if IsEmpty(Str(id)) then Reject([NoPaymentId])
    else Send(Step(POST, "anticipations/simulate/", [Entry(StrKey("payment"), Str(id))], []), ErrorsOtherwise, false)
  }

  /** The body of an anticipation request: the signature, the payment and, when given, the document as a file part. */
  function AntecipacaoBody(dados: seq<Entry>): seq<Entry>
  {
    var base := [Entry(StrKey("agreementSignature"), At(dados, "solicitante")), Entry(StrKey("payment"), At(dados, "cobranca"))];
    var doc := At(dados, "documento");
    if IsSet(doc) && !IsEmpty(doc) then
      Assign(base, "documents", File(Field(doc, "path"), Field(doc, "type"), Field(doc, "name")))
    else base
  }

  /** Sent in upload mode, which stays on afterwards. */
  function AntecipacaoCobranca(dados: seq<Entry>): Plan
  {
    Checked(dados, AntecipacaoRules(), Send(Step(POST, "anticipations/", AntecipacaoBody(dados), []), AntecipacaoHandling, true))
  }

  const NoAnticipationId := "Não informado ID da antecipação"

  function BuscaAntecipacaoCobranca(id: string): Plan
  {
    if IsEmpty(Str(id)) then Reject([NoAnticipationId])
    else Send(Step(GET, "anticipations/" + id, [], []), BuscaAntecipacaoHandling, false)
  }

  /** The caller's parameters travel as the request body, not as query filters. */
  function EstornaCobranca(id: string, params: seq<Entry>): Plan
  {
    Send(Step(POST, "payments/" + id + "/refund", params, []), ErrorsOr(TryLater("estornar a cobrança")), false)
  }

  function RemoveCobranca(id: string, params: seq<Entry>): Plan
  {
    Send(Step(DELETE, "payments/" + id, [], Values(params)), ErrorsOr(TryLater("remover a cobrança")), false)
  }

  function ConfirmaRecebimentoDinheiro(id: string, data: seq<Entry>, params: seq<Entry>): Plan
  {
    Checked(data, ConfirmaRecebimentoRules(),
      Send(Step(POST, "payments/" + id + "/receiveInCash", Only(data, ConfirmaRecebimentoFields), Values(params)),
           ConfirmaRecebimentoHandling, false))
  }

  // -------------------------------------------------------- installments

  function GeraCobrancaParcelada(data: seq<Entry>, params: seq<Entry>): Plan
  {
    Checked(data, ParceladaRules(),
      Send(Step(POST, "payments", Only(data, ParceladaFields), Values(params)), ErrorsOtherwise, false))
  }

  function BuscaParcelamento(id: string, params: seq<Entry>): Plan
  {
    Send(Step(GET, "installments/" + id, [], Values(params)),
         NotFoundOr("Parcelamento não encontrado", TryLater("buscar o parcelamento")), false)
  }

  function ListaParcelamentos(params: seq<Entry>): Plan
  {
    Send(Step(GET, "installments", [], ListFilters(params)),
         NotFoundOr("Parcelamentos não encontrados", TryLater("buscar os parcelamentos")), false)
  }

  function EstornaParcelamento(id: string, params: seq<Entry>): Plan
  {
    Send(Step(POST, "installments/" + id + "/refund", params, []),
         NotFoundThenErrorsOr("Parcelamentos não encontrados", TryLater("estornar o parcelamento")), false)
  }

  // ------------------------------------------------------- subscriptions

  function GeraAssinatura(data: seq<Entry>, params: seq<Entry>): Plan
  {
    Checked(data, AssinaturaRules(), Subscribe(Step(POST, "subscriptions", Only(data, AssinaturaFields), Values(params))))
  }

  function BuscaAssinatura(id: string, params: seq<Entry>): Plan
  {
    Send(Step(POST, "subscriptions/" + id, params, []),
         NotFoundThenErrorsOr("Assinatura não encontrada", TryLater("buscar a assinatura")), false)
  }

  function ListaAssinaturas(params: seq<Entry>): Plan
  {
    Send(Step(GET, "subscriptions", [], ListFilters(params)),
         NotFoundThenErrorsOr("Nenhuma assinatura encontrada", TryLater("listar as assinaturas")), false)
  }

  function ListaCobrancasAssinatura(id: string, params: seq<Entry>): Plan
  {
    Send(Step(GET, "subscriptions/" + id + "/payments", [], Values(params)),
         NotFoundThenErrorsOr("Nenhuma cobrança da assinatura encontrada", TryLater("listar as cobranças da assinatura")), false)
  }

  function AtualizaAssinatura(id: string, data: seq<Entry>, params: seq<Entry>): Plan
  {
    Checked(data, AtualizaAssinaturaRules(),
      Send(Step(POST, "subscriptions/" + id, Only(data, AtualizaAssinaturaFields), Values(params)), ErrorsOtherwise, false))
  }

  // --------------------------------------------------------------- bills

  function GeraPagamento(data: seq<Entry>, params: seq<Entry>): Plan
  {
    Checked(data, GeraPagamentoRules(),
      Send(Step(POST, "bill", Only(data, GeraPagamentoFields), Values(params)), ErrorsOr(TryLaterPlain("gerar o pagamento")), false))
  }

  function SimulaPagamento(data: seq<Entry>, params: seq<Entry>): Plan
  {
    Checked(data, SimulaPagamentoRules(),
      Send(Step(POST, "bill/simulate", Only(data, SimulaPagamentoFields), Values(params)),
           ErrorsOr(TryLaterPlain("simular o pagamento")), false))
  }

  function BuscaPagamento(id: string, params: seq<Entry>): Plan
  {
    Send(Step(GET, "bill/" + id, [], Values(params)),
         NotFoundThenErrorsOr("Pagameto não encontrado", TryLater("buscar o pagamento")), false)
  }

  function ListaPagamentos(params: seq<Entry>): Plan
  {
    Send(Step(GET, "bill", [], ListFilters(params)),
         NotFoundThenErrorsOr("Nenhum pagamento encontrado", TryLater("listar os pagamentos")), false)
  }

  function CancelaPagamento(id: string, params: seq<Entry>): Plan
  {
    Send(Step(POST, "bill/" + id + "/cancel", params, []),
         NotFoundThenErrorsOr("Pagameto não encontrado", TryLater("cancelar o pagamento")), false)
  }

  // ----------------------------------------------------------- transfers

  function TransfereOutroBanco(data: seq<Entry>, params: seq<Entry>): Plan
  {
    Checked(data, TransfereRules(),
      Send(Step(POST, "transfers", Only(data, TransfereFields), Values(params)),
           ErrorsOr(TryLaterPlain("realizar a transferência")), false))
  }

  function ListaTransferencias(params: seq<Entry>): Plan
  {
    Send(Step(GET, "transfers", [], Values(params)), ErrorsOr(TryLaterPlain("listar as transferências")), false)
  }

  function BuscaTransferencia(id: string, params: seq<Entry>): Plan
  {
    Send(Step(GET, "transfers/" + id, [], Values(params)), ErrorsOr(TryLaterPlain("buscar a transferência")), false)
  }

  function ListaBancos(params: seq<Entry>): Plan
  {
    Send(Step(GET, "banks", [], ListFilters(params)),
         NotFoundOr("Bancos não encontrados", TryLater("buscar os bancos")), false)
  }

  function ListaContas(params: seq<Entry>): Plan
  {
    Send(Step(GET, "bankAccounts", [], ListFilters(params)),
         NotFoundOr("Contas não encontradas", TryLater("buscar as contas")), false)
  }
}
