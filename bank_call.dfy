/**
 * BankCallService: fetches a bank record (and from it the credit bounds) from
 * the configuration backend.  The HTTP client treats every non-2xx reply as
 * an exception and retries server errors up to `maxRetries` times.
 *
 * The backend is a parameter: `server(k, url)` is its reply to the k-th
 * request this service sends (counting from 0), so a scripted sequence of
 * outcomes and a backend that answers every request alike are both instances.
 */
module BankCall {
  import opened Wrappers
  import opened Models
  import opened Text

  const BANKS_PATH := "banks"
  const CREDIT_CONFIGURATION_NOT_FOUND_MESSAGE := "[creditConfiguration not found]"

  /** Where the backend lives and how often a failed request is repeated. */
  datatype ConfigBackendConfiguration = ConfigBackendConfiguration(
    protocol: string,
    host: string,
    port: int,
    apiVersion: string,
    maxRetries: nat
  )

  /**
   * A status code the client's `expectSuccess` raises on: Ktor's default
   * validator lets every code below 300 through.
   */
  type FailureCode = code: int | code >= 300 witness 500

  /** One reply of the backend: a decoded bank, or a failure status. */
  datatype Reply = Body(bank: Bank) | Status(code: FailureCode)

  /** The retry behaviour repeats a request only on a 5xx reply. */
  predicate Retryable(reply: Reply) {
    reply.Status? && 500 <= reply.code <= 599
  }

  /** The exception `expectSuccess` raises for a non-success status. */
  function StatusError(code: FailureCode): (e: Error)
    ensures 400 <= code <= 499 <==> e == ClientRequestError(code)
    ensures 500 <= code <= 599 <==> e == ServerResponseError(code)
    ensures !(400 <= code <= 599) <==> e == ResponseError(code)
  {
    if 400 <= code <= 499 then ClientRequestError(code)
    else if 500 <= code <= 599 then ServerResponseError(code)
    else ResponseError(code)
  }

  /** What a call yields from its last reply: the body, or the status's exception. */
  function Decode(reply: Reply): (r: Result<Bank, Error>)
    ensures r.Success? <==> reply.Body?
    ensures reply.Body? ==> r.value == reply.bank
    ensures reply.Status? ==> r.error == StatusError(reply.code)
  {
    match reply
    case Body(bank) => Success(bank)
    case Status(code) => Failure(StatusError(code))
  }

  /** The final reply of one call and the number of requests it took. */
  datatype Exchange = Exchange(reply: Reply, attempts: nat)

  /**
   * The rest of a call whose first request was request number `sent` and
   * which has been retried `retried` times so far: the request is repeated
   * while the reply is a 5xx and fewer than `retries` retries were made.
   */
  function ExchangedFrom(server: (nat, string) -> Reply, url: string, sent: nat, retried: nat, retries: nat): (x: Exchange)
    requires retried <= retries
    ensures retried + 1 <= x.attempts <= retries + 1
    ensures x.reply == server(sent + x.attempts - 1, url)
    decreases retries - retried
  {
    var reply := server(sent + retried, url);
    if Retryable(reply) && retried < retries then ExchangedFrom(server, url, sent, retried + 1, retries)
    else Exchange(reply, retried + 1)
  }

  /** One whole call, its first request sent as request number `sent`. */
  function Exchanged(server: (nat, string) -> Reply, url: string, sent: nat, retries: nat): (x: Exchange)
    ensures 1 <= x.attempts <= retries + 1
    ensures x.reply == server(sent + x.attempts - 1, url)
  {
    ExchangedFrom(server, url, sent, 0, retries)
  }

  lemma {:induction false} RetriesOnlyServerErrorsFrom(
    server: (nat, string) -> Reply, url: string, sent: nat, retried: nat, retries: nat)
    requires retried <= retries
    ensures var x := ExchangedFrom(server, url, sent, retried, retries);
      && (forall k :: sent + retried <= k < sent + x.attempts - 1 ==> Retryable(server(k, url)))
      && (x.attempts <= retries ==> !Retryable(x.reply))
    decreases retries - retried
  {
    if Retryable(server(sent + retried, url)) && retried < retries {
      RetriesOnlyServerErrorsFrom(server, url, sent, retried + 1, retries);
    }
  }

  /**
   * Every request of a call but the last got a 5xx, and the call stops
   * before the budget is spent only on a reply that is not a 5xx.
   */
  lemma ExchangedRetriesOnlyServerErrors(server: (nat, string) -> Reply, url: string, sent: nat, retries: nat)
    ensures var x := Exchanged(server, url, sent, retries);
      && (forall k :: sent <= k < sent + x.attempts - 1 ==> Retryable(server(k, url)))
      && (x.attempts <= retries ==> !Retryable(x.reply))
  {
    RetriesOnlyServerErrorsFrom(server, url, sent, 0, retries);
  }

  /** A 4xx reply is final: one request, and a client-request error. */
  lemma ClientErrorIsNotRetried(server: (nat, string) -> Reply, url: string, sent: nat, retries: nat, code: int)
    requires 400 <= code <= 499 && server(sent, url) == Status(code)
    ensures Exchanged(server, url, sent, retries) == Exchange(Status(code), 1)
    ensures Decode(Exchanged(server, url, sent, retries).reply) == Failure(ClientRequestError(code))
  {
  }

  lemma {:induction false} PersistentServerErrorFrom(
    server: (nat, string) -> Reply, url: string, sent: nat, retried: nat, retries: nat, code: int)
    requires retried <= retries && 500 <= code <= 599
    requires forall k :: sent <= k ==> server(k, url) == Status(code)
    ensures ExchangedFrom(server, url, sent, retried, retries) == Exchange(Status(code), retries + 1)
    decreases retries - retried
  {
    assert server(sent + retried, url) == Status(code);
    if retried < retries {
      PersistentServerErrorFrom(server, url, sent, retried + 1, retries, code);
    }
  }

  /** A backend that keeps answering 5xx is asked `retries + 1` times, and the last 5xx is raised. */
  lemma PersistentServerErrorExhaustsRetries(
    server: (nat, string) -> Reply, url: string, sent: nat, retries: nat, code: int)
    requires 500 <= code <= 599
    requires forall k :: sent <= k ==> server(k, url) == Status(code)
    ensures Exchanged(server, url, sent, retries) == Exchange(Status(code), retries + 1)
    ensures Decode(Exchanged(server, url, sent, retries).reply) == Failure(ServerResponseError(code))
  {
    PersistentServerErrorFrom(server, url, sent, 0, retries, code);
  }

  /** A transient 5xx followed by a bank: two requests, and the bank is returned. */
  lemma RetryRecoversFromServerError(server: (nat, string) -> Reply, url: string, sent: nat, retries: nat, bank: Bank)
    requires retries >= 1 && Retryable(server(sent, url)) && server(sent + 1, url) == Body(bank)
    ensures Exchanged(server, url, sent, retries) == Exchange(Body(bank), 2)
    ensures Decode(Exchanged(server, url, sent, retries).reply) == Success(bank)
  {
    assert ExchangedFrom(server, url, sent, 1, retries) == Exchange(Body(bank), 2);
  }

  /** `protocol://host:port/apiVersion/banks/<id>`: the request target for one bank. */
  function BankUrl(config: ConfigBackendConfiguration, id: string): (url: string)
    ensures |url| >= |id| && url[|url| - |id|..] == id
  {
    var base := config.protocol + "://" + config.host + ":" + IntToString(config.port) + "/"
      + config.apiVersion + "/" + BANKS_PATH + "/";
    assert (base + id)[|base|..] == id;
    base + id
  }

  /** Distinct ids are sent to distinct targets. */
  lemma BankUrlInjective(config: ConfigBackendConfiguration, a: string, b: string)
    requires BankUrl(config, a) == BankUrl(config, b)
    ensures a == b
  {
    var base := config.protocol + "://" + config.host + ":" + IntToString(config.port) + "/"
      + config.apiVersion + "/" + BANKS_PATH + "/";
    assert BankUrl(config, a) == base + a && BankUrl(config, b) == base + b;
    assert a == (base + a)[|base|..];
    assert b == (base + b)[|base|..];
  }

  /** `body<Bank>().creditConfiguration ?: throw NotFoundException(...)`. */
  function CreditConfigOf(bank: Result<Bank, Error>): (r: Result<CreditConfiguration, Error>)
    ensures bank.Failure? ==> r == Failure(bank.error)
    ensures r.Success? <==> bank.Success? && bank.value.creditConfiguration.Some?
    ensures r.Success? ==> Some(r.value) == bank.value.creditConfiguration
    ensures bank.Success? && bank.value.creditConfiguration.None?
        ==> r == Failure(NotFound(CREDIT_CONFIGURATION_NOT_FOUND_MESSAGE))
  {
    match bank
    case Failure(e) => Failure(e)
    case Success(b) =>
      match b.creditConfiguration
      case Some(c) => Success(c)
      case None => Failure(NotFound(CREDIT_CONFIGURATION_NOT_FOUND_MESSAGE))
  }

  /** `count` copies of `url`. */
  function Repeat(url: string, count: nat): (s: seq<string>)
    ensures |s| == count && forall i :: 0 <= i < count ==> s[i] == url
  {
    if count == 0 then [] else Repeat(url, count - 1) + [url]
  }

  class BankCallService {
    const defaultBankId: string
    const config: ConfigBackendConfiguration
    const server: (nat, string) -> Reply
    /** Every request sent, in order: one entry per attempt. */
    var requests: seq<string>
    /** The bank ids fetched, in order: one entry per call, however many attempts it took. */
    var fetched: seq<string>

    constructor(defaultBankId: string, config: ConfigBackendConfiguration, server: (nat, string) -> Reply)
      ensures this.defaultBankId == defaultBankId && this.config == config && this.server == server
      ensures requests == [] && fetched == []
    {
      this.defaultBankId := defaultBankId;
      this.config := config;
      this.server := server;
      requests := [];
      fetched := [];
    }

    /** How the next call for bank `id` will go, given the requests sent so far. */
    function NextExchange(id: string): Exchange
      reads this
    {
      Exchanged(server, BankUrl(config, id), |requests|, config.maxRetries)
    }

    /** The credit bounds the next `GetCreditConfigByBankId()` (default id) will yield. */
    function NextCreditConfig(): Result<CreditConfiguration, Error>
      reads this
    {
      CreditConfigOf(Decode(NextExchange(defaultBankId).reply))
    }

    /** `client.get(url)`: send, and repeat on a 5xx while retries remain. */
    method Get(url: string) returns (reply: Reply)
      modifies this
      ensures var x := Exchanged(server, url, |old(requests)|, config.maxRetries);
        reply == x.reply && requests == old(requests) + Repeat(url, x.attempts)
      ensures fetched == old(fetched)
    {
      var start := |requests|;
      var retries := config.maxRetries;
      var retried := 0;
      reply := server(start, url);
      while Retryable(reply) && retried < retries
        invariant retried <= retries
        invariant reply == server(start + retried, url)
        invariant ExchangedFrom(server, url, start, retried, retries) == Exchanged(server, url, start, retries)
        decreases retries - retried
      {
        retried := retried + 1;
        reply := server(start + retried, url);
      }
      requests := requests + Repeat(url, retried + 1);
    }

    /** `getBankById(id = defaultBankId)`: the decoded bank, or the exception of the last reply. */
    method GetBankById(id: Option<string>) returns (result: Result<Bank, Error>)
      modifies this
      ensures var x := old(NextExchange(id.GetOr(defaultBankId)));
        result == Decode(x.reply)
        && requests == old(requests) + Repeat(BankUrl(config, id.GetOr(defaultBankId)), x.attempts)
      ensures fetched == old(fetched) + [id.GetOr(defaultBankId)]
    {
      var bankId := id.GetOr(defaultBankId);
      var reply := Get(BankUrl(config, bankId));
      fetched := fetched + [bankId];
      result := Decode(reply);
    }

    /** `getCreditConfigByBankId(id = defaultBankId)`: the bank's bounds, or NotFound when it has none. */
    method GetCreditConfigByBankId(id: Option<string>) returns (result: Result<CreditConfiguration, Error>)
      modifies this
      ensures var x := old(NextExchange(id.GetOr(defaultBankId)));
        result == CreditConfigOf(Decode(x.reply))
        && requests == old(requests) + Repeat(BankUrl(config, id.GetOr(defaultBankId)), x.attempts)
      ensures id == None ==> result == old(NextCreditConfig())
      ensures fetched == old(fetched) + [id.GetOr(defaultBankId)]
    {
      var bank := GetBankById(id);
      result := CreditConfigOf(bank);
    }
  }
}
