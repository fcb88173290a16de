/**
 * The two calls the chat route makes to the minting service: `sendNFT`,
 * which posts one mint request for the winner's address, and
 * `getTransactionHash`, which polls for the hash of the resulting on-chain
 * transaction. The HTTP exchanges are not modelled; what the service
 * answers is an input.
 */
module Syndicate {
  import opened Optional

  /** The prize token contract. */
  const PrizeContract := "0xbEc332E1eb3EE582B36F979BF803F98591BB9E24"
  /** Polygon Mumbai test network. */
  const MumbaiChainId := 80001
  /** The contract function that is called. */
  const MintSignature := "mint(address account)"

  datatype MintArgs = MintArgs(account: string)

  /** The JSON body of the mint request. */
  datatype MintRequest = MintRequest(
    projectId: string,
    contractAddress: string,
    chainId: int,
    functionSignature: string,
    args: MintArgs)

  /** The fields every prize mint request carries, whoever wins. */
  predicate IsPrizeMint(b: MintRequest) {
    b.contractAddress == PrizeContract
    && b.chainId == MumbaiChainId
    && b.functionSignature == MintSignature
  }

  /** The parsed JSON body the minting service answers with. */
  datatype ReplyBody = ReplyBody(transactionId: string)

  /**
   * What one request to the minting service yields: either the request or
   * the parsing of its answer threw, or the service answered with a status
   * (`ok` is true for 2xx) and a body.
   */
  datatype MintReply = Thrown(detail: string) | Answered(ok: bool, body: ReplyBody)

  datatype SendResult =
    | Success(data: ReplyBody)
    | ErrorBody(error: ReplyBody)    // the service answered with a non-2xx status
    | ErrorThrown(detail: string)    // network or JSON-parse failure

  /** One mint attempt: the request sent and how it came back. */
  datatype MintAttempt = MintAttempt(request: MintRequest, result: SendResult)

  /**
   * `sendNFT(ethAddress)`: builds the mint request for `ethAddress`, sends
   * it once and classifies the answer. It never fails itself: every failure
   * becomes an error result.
   */
  function SendNft(projectId: string, ethAddress: string, reply: MintReply): (a: MintAttempt)
    ensures IsPrizeMint(a.request)
    ensures a.request.args.account == ethAddress && a.request.projectId == projectId
    ensures a.result.Success? <==> reply.Answered? && reply.ok
    ensures a.result.Success? ==> a.result.data == reply.body
    ensures reply.Answered? && !reply.ok ==> a.result == ErrorBody(reply.body)
    ensures reply.Thrown? ==> a.result == ErrorThrown(reply.detail)
  {
    var request := MintRequest(projectId, PrizeContract, MumbaiChainId, MintSignature, MintArgs(ethAddress));
    var result :=
      match reply
      case Thrown(detail) => ErrorThrown(detail)
      case Answered(ok, body) => if ok then Success(body) else ErrorBody(body);
    MintAttempt(request, result)
  }

  /**
   * What one status request for the transaction yields: it threw (network
   * error, JSON error, or no `transactionAttempts` list), or it produced the
   * first attempt's hash, "" when there is no attempt or no hash yet.
   */
  datatype Poll = PollThrew | PollHash(hash: string)

  /** The hash one poll observes; a poll that threw observes nothing. */
  function Observed(p: Poll): string {
    match p
    case PollThrew => ""
    case PollHash(h) => h
  }

  /** No poll in `ps` observed a hash. */
  predicate NoHash(ps: seq<Poll>) {
    forall k :: 0 <= k < |ps| ==> Observed(ps[k]) == ""
  }

  /** The first non-empty hash observed by the polls `ps`, if any. */
  function FirstHash(ps: seq<Poll>): (r: Option<string>)
    ensures r.Some? ==> r.value != ""
    decreases |ps|
  {
    if |ps| == 0 then None
    else if Observed(ps[0]) != "" then Some(Observed(ps[0]))
    else FirstHash(ps[1..])
  }

  /**
   * `FirstHash` finds a hash exactly at the first poll that observed one:
   * the polls before it that threw or saw no hash are skipped.
   */
  lemma {:induction false} FirstHashFound(ps: seq<Poll>, i: int)
    requires 0 <= i < |ps| && Observed(ps[i]) != "" && NoHash(ps[..i])
    ensures FirstHash(ps) == Some(Observed(ps[i]))
    decreases i
  {
    if i > 0 {
      assert Observed(ps[0]) == "" by { assert ps[..i][0] == ps[0]; }
      var tail := ps[1..];
      var before := tail[..i - 1];
      assert NoHash(before) by {
        forall k | 0 <= k < i - 1 ensures Observed(before[k]) == "" {
          assert before[k] == ps[..i][k + 1];
        }
      }
      FirstHashFound(tail, i - 1);
    }
  }

  /** `FirstHash` finds nothing exactly when no poll observed a hash. */
  lemma {:induction false} FirstHashNone(ps: seq<Poll>)
    ensures FirstHash(ps).None? <==> NoHash(ps)
    decreases |ps|
  {
    if |ps| > 0 {
      FirstHashNone(ps[1..]);
      if NoHash(ps[1..]) && Observed(ps[0]) == "" {
        forall k | 0 <= k < |ps| ensures Observed(ps[k]) == "" {
          if k > 0 { assert ps[k] == ps[1..][k - 1]; }
        }
      }
      if NoHash(ps) {
        forall k | 0 <= k < |ps| - 1 ensures Observed(ps[1..][k]) == "" {
          assert ps[1..][k] == ps[k + 1];
        }
      }
    }
  }

  /**
   * `getTransactionHash` over the answers its polls receive: it polls until
   * a non-empty hash is observed, swallowing failed polls. The real loop has
   * no bound; here it stops when `polls` runs out, and `None` means the real
   * loop would still be waiting.
   */
  method GetTransactionHash(polls: seq<Poll>) returns (found: Option<string>)
    ensures found == FirstHash(polls)
    ensures found.Some? ==> found.value != ""
  {
    var transactionHash := "";
    var i := 0;
    while transactionHash == "" && i < |polls|
      invariant 0 <= i <= |polls|
      invariant transactionHash == "" ==> FirstHash(polls) == FirstHash(polls[i..])
      invariant transactionHash != "" ==> FirstHash(polls) == Some(transactionHash)
    {
      assert polls[i..][1..] == polls[i + 1..];
      if polls[i].PollHash? {
        transactionHash := polls[i].hash;
      }
      i := i + 1;
    }
    if transactionHash == "" {
      found := None;
    } else {
      found := Some(transactionHash);
    }
  }
}
