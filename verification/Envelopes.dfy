/** The decoder of queue messages, from the fields of the envelope on (internal/workers/engine.go). */
module Envelopes {
  import opened Prelude
  import opened Money
  import opened Settlement
  import opened Tables
  import opened Commands
  import opened Identifiers
  import opened Messages
  import MoneyText

  datatype Envelope = Envelope(
    messageId: string, messageType: string, occurredAt: Time, providerId: string, externalId: string,
    idempotencyKey: string, playerId: string, walletId: string, roundId: string, gameId: string, kind: string,
    refExternal: string, amount: string, currency: Currency)

  const REQUESTED := "WagerTransactionRequested"
  const CONSUMER := "wager-transactions-v1"

  predicate WellFormed(e: Envelope, providers: seq<string>) {
    && e.messageId != "" && Bytes(e.messageId) <= 200
    && e.messageType == "WagerTransactionRequested" && e.occurredAt != NO_TIME && e.providerId in providers
  }

  /** The command as the sender wrote it; the message is its correlation and its cause. */
  function Sent(e: Envelope, money: Money): RawCommand {
    RawCommand(e.providerId, e.externalId, e.idempotencyKey, e.playerId, e.walletId, e.roundId, e.gameId, e.kind,
               money, e.refExternal, Trace(e.messageId, e.messageId))
  }

  /** The message that stands for a command in the inbox. */
  function MessageOf(e: Envelope, c: RawCommand): InboxMessage {
    InboxMessage(CONSUMER, e.messageId, Some(InboxHash(e.messageType, e.occurredAt, Typed(c))))
  }

  /** The amount is one, and with it the command is normal. */
  ghost predicate Acceptable(e: Envelope, v: nat) {
    v <= MAX_INT64 && MoneyText.Denotes(e.amount, v) && NormalizeCommand(Typed(Sent(e, Money(v, e.currency)))).Ok?
  }

  /**
   * A message is decoded to the canonical command and to an inbox message that carries that command's own hash, exactly
   * if its envelope, its amount and its command are in order.
   */
  method Decode(e: Envelope, providers: seq<string>) returns (r: Result<(RawCommand, InboxMessage)>)
    ensures !WellFormed(e, providers) ==> r == Fail(INVALID_MESSAGE)
    ensures r.Ok? <==> WellFormed(e, providers) && ValidCurrency(e.currency) && exists v: nat :: Acceptable(e, v)
    ensures r.Ok? ==>
      var (c, message) := r.value;
      && c.providerId == e.providerId && c.externalId == e.externalId && c.idempotencyKey == e.idempotencyKey
      && c.roundId == e.roundId && c.gameId == e.gameId && c.refExternal == e.refExternal
      && ParseID(c.playerId) == ParseID(e.playerId) && ParseID(e.playerId).Ok? && c.playerId == LowerHexes(e.playerId)
      && ParseID(c.walletId) == ParseID(e.walletId) && ParseID(e.walletId).Ok? && c.walletId == LowerHexes(e.walletId)
      && c.kind in {"BET", "WIN", "LOSS", "REFUND", "ROLLBACK"} && Spells(e.kind, c.kind)
      && c.money.currency == e.currency && c.money.minor >= 0 && MoneyText.Denotes(e.amount, c.money.minor)
      && c.trace.correlation == e.messageId && c.trace.causation == e.messageId
    ensures r.Ok? ==>
      var (c, message) := r.value;
      && message.consumer == "wager-transactions-v1" && message.messageId == e.messageId
      && message.digest == Some(MessageHash(e.messageType, e.occurredAt, Typed(c).(trace := Trace("", ""))))
      && ValidMessage(message) && Sealed(Typed(c), Some(message)) && NormalizeCommand(Typed(c)) == Ok(Typed(c))
  {
    hide MoneyText.Denotes;
    hide NormalizeCommand;
    hide Typed;
    hide Canonical;
    if e.messageId == "" || Bytes(e.messageId) > 200 || e.messageType != REQUESTED || e.occurredAt == NO_TIME {
      return Fail(INVALID_MESSAGE);
    }
    var allowed := IsTrusted(e.providerId, providers);
    if !allowed {
      return Fail(INVALID_MESSAGE);
    }
    var money :- MoneyText.ParseMoney(e.amount, e.currency);
    OneAmount(e, money.minor);
    var c :- Normalize(Sent(e, money));
    NormalizedIsStable(Sent(e, money));
    CanonicalSays(Sent(e, money));
    return Ok((c, MessageOf(e, c)));
  }

  method IsTrusted(provider: string, providers: seq<string>) returns (allowed: bool)
    ensures allowed <==> provider in providers
  {
    for i := 0 to |providers|
      invariant provider !in providers[..i]
    {
      if provider == providers[i] {
        return true;
      }
    }
    return false;
  }

  /** The canonical form of a normal command, field by field. */
  lemma CanonicalSays(c: RawCommand)
    requires IsNormal(c)
    ensures var n := Canonical(c);
      && n.providerId == c.providerId && n.externalId == c.externalId && n.idempotencyKey == c.idempotencyKey
      && n.roundId == c.roundId && n.gameId == c.gameId && n.refExternal == c.refExternal && n.money == c.money
      && n.playerId == LowerHexes(c.playerId) && ParseID(n.playerId) == ParseID(c.playerId)
      && n.walletId == LowerHexes(c.walletId) && ParseID(n.walletId) == ParseID(c.walletId)
      && n.kind in {"BET", "WIN", "LOSS", "REFUND", "ROLLBACK"} && Spells(c.kind, n.kind)
      && (c.trace.correlation != "" ==> n.trace == c.trace)
  {
    hide NamesFit;
    hide ParseID;
    hide Spells;
    LowerNames(c.playerId);
    LowerNames(c.walletId);
    UpperSpells(c.kind, "BET");
    UpperSpells(c.kind, "WIN");
    UpperSpells(c.kind, "LOSS");
    UpperSpells(c.kind, "REFUND");
    UpperSpells(c.kind, "ROLLBACK");
  }

  lemma OneAmount(e: Envelope, v: nat)
    requires v <= MAX_INT64 && MoneyText.Denotes(e.amount, v)
    ensures (exists u: nat :: Acceptable(e, u)) <==> Acceptable(e, v)
  {
    forall u: nat | Acceptable(e, u) ensures u == v { MoneyText.DenotesUnique(e.amount, u, v); }
  }
}
