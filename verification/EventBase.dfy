/**
 What the relay does about an event contract it looks at (src/engine/bridge/mod.rs).

 The contract is what its getters return when they run locally; each may fail.
 */
module EventBase {
  import opened Wrappers

  type PublicKey = nat

  datatype EventStatus = Initializing | Pending | Confirmed | Rejected

  datatype GetterError = GetterFailed

  type Getter<T> = Result<T, GetterError>

  datatype EventContract = EventContract(
    status: Getter<EventStatus>,
    emptyVoters: Getter<set<PublicKey>>,
    apiVersion: Getter<nat>,
    balance: nat)

  datatype EventAction = Nop | Remove | Vote

  const SUPPORTED_API_VERSION: nat := 2
  const MIN_EVENT_BALANCE: nat := 100_000_000

  /** The guard both voting arms share. The voters getter may fail and ends the call; a
      failing version getter counts as version 0. */
  function CanVote(c: EventContract, publicKey: PublicKey): Getter<bool> {
    var voters :- c.emptyVoters;
    Ok(publicKey in voters && (if c.apiVersion.Ok? then c.apiVersion.value else 0) == SUPPORTED_API_VERSION)
  }

  function Process(c: EventContract, publicKey: PublicKey, requireAllSignatures: bool): Getter<EventAction> {
    var status :- c.status;
    match status
    case Initializing => Ok(Nop)
    case Pending =>
      var guard :- CanVote(c, publicKey);
      Ok(if guard then Vote else Remove)
    case Confirmed =>
      if requireAllSignatures && c.balance >= MIN_EVENT_BALANCE then
        var guard :- CanVote(c, publicKey);
        Ok(if guard then Vote else Remove)
      else
        Ok(Remove)
    case Rejected => Ok(Remove)
  }

  /** The contract still takes votes: it is pending, or, where every signature is wanted, it
      is confirmed and can pay for more. */
  predicate Votable(c: EventContract, requireAllSignatures: bool) {
    || c.status == Ok(Pending)
    || (requireAllSignatures && c.status == Ok(Confirmed) && c.balance >= MIN_EVENT_BALANCE)
  }

  /** The relay votes exactly on a votable contract of the supported version that lists its
      key among those who have not voted. */
  lemma VoteIff(c: EventContract, publicKey: PublicKey, requireAllSignatures: bool)
    ensures Process(c, publicKey, requireAllSignatures) == Ok(Vote) <==>
              && Votable(c, requireAllSignatures)
              && c.emptyVoters.Ok? && publicKey in c.emptyVoters.value
              && c.apiVersion == Ok(SUPPORTED_API_VERSION)
    ensures Process(c, publicKey, requireAllSignatures) == Ok(Nop) <==> c.status == Ok(Initializing)
    ensures Process(c, publicKey, requireAllSignatures).Err? <==>
              c.status.Err? || (Votable(c, requireAllSignatures) && c.emptyVoters.Err?)
  {
  }
}
