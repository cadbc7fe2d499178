/**
 * The canonical form that both transports share, and what the financial hash covers
 * (internal/application/normalize.go, contracts.go).
 */
module Commands {
  import opened Prelude
  import opened Money
  import opened Wager
  import opened Settlement
  import opened Tables
  import opened Identifiers

  /** A command as a transport hands it over. */
  datatype RawCommand = RawCommand(
    providerId: string, externalId: string, idempotencyKey: string, playerId: string, walletId: string,
    roundId: string, gameId: string, kind: string, money: Money, refExternal: string, trace: Trace)

  // ---------- kinds ----------

  /** unicode.ToUpper as far as it yields ASCII letters; beside a to z these are the dotless i and the long s. */
  function Upper(c: char): char {
    if 'a' <= c <= 'z' then (c as int - 32) as char
    else if c == '\U{131}' then 'I'
    else if c == '\U{17F}' then 'S'
    else c
  }

  function UpperText(s: string): (r: string)
    ensures |r| == |s| && forall i :: 0 <= i < |s| ==> r[i] == Upper(s[i])
  {
    seq(|s|, i requires 0 <= i < |s| => Upper(s[i]))
  }

  function KindOf(text: string): Option<Kind> {
    if text == "BET" then Some(BET)
    else if text == "WIN" then Some(WIN)
    else if text == "LOSS" then Some(LOSS)
    else if text == "REFUND" then Some(REFUND)
    else if text == "ROLLBACK" then Some(ROLLBACK)
    else None
  }

  lemma KindIsExternal(text: string)
    ensures KindOf(text) != Some(OPENING)
  {
  }

  /** The text is the word, letter case aside; upper-casing also makes I of the dotless i and S of the long s. */
  predicate Spells(text: string, word: string) {
    && |text| == |word|
    && forall i :: 0 <= i < |word| ==>
      || text[i] == word[i] || text[i] as int == word[i] as int + 32
      || (word[i] == 'I' && text[i] == '\U{131}') || (word[i] == 'S' && text[i] == '\U{17F}')
  }

  lemma UpperSpells(text: string, word: string)
    requires forall i :: 0 <= i < |word| ==> 'A' <= word[i] <= 'Z'
    ensures UpperText(text) == word <==> Spells(text, word)
  {
    if Spells(text, word) {
      assert forall i :: 0 <= i < |word| ==> UpperText(text)[i] == word[i];
    }
    if UpperText(text) == word {
      assert forall i :: 0 <= i < |word| ==> Upper(text[i]) == UpperText(text)[i];
    }
  }

  /** The five kinds are read from the spellings of their names. */
  lemma KindIsSpelled(text: string)
    ensures var kind := KindOf(UpperText(text));
      && (kind == Some(BET) <==> Spells(text, "BET")) && (kind == Some(WIN) <==> Spells(text, "WIN"))
      && (kind == Some(LOSS) <==> Spells(text, "LOSS")) && (kind == Some(REFUND) <==> Spells(text, "REFUND"))
      && (kind == Some(ROLLBACK) <==> Spells(text, "ROLLBACK")) && kind != Some(OPENING)
  {
    UpperSpells(text, "BET");
    UpperSpells(text, "WIN");
    UpperSpells(text, "LOSS");
    UpperSpells(text, "REFUND");
    UpperSpells(text, "ROLLBACK");
  }

  // ---------- the command behind the texts ----------

  function IdOf(text: string): Id {
    if ParseID(text).Ok? then ParseID(text).value else NO_ID
  }

  function Typed(c: RawCommand): Command {
    Command(c.providerId, c.externalId, c.idempotencyKey, IdOf(c.playerId), IdOf(c.walletId), c.roundId, c.gameId,
            KindOf(UpperText(c.kind)), c.money, c.refExternal, c.trace)
  }

  /** One spelling of each identifier and kind, and a correlation. */
  function Canonical(c: RawCommand): RawCommand {
    c.(playerId := LowerHexes(c.playerId), walletId := LowerHexes(c.walletId), kind := UpperText(c.kind),
       trace := if c.trace.correlation == "" then c.trace.(correlation := c.externalId) else c.trace)
  }

  // ---------- which commands are normal ----------

  /** Provider, external id, key, round and game have 1 to 256 bytes and no space at either end. */
  predicate NamesFit(c: RawCommand) {
    var names := [c.providerId, c.externalId, c.idempotencyKey, c.roundId, c.gameId];
    forall i :: 0 <= i < |names| ==>
      1 <= |names[i]| && Bytes(names[i]) <= 256 && !IsSpace(names[i][0]) && !IsSpace(names[i][|names[i]| - 1])
  }

  /** The kind is spelled as one of the five, and a REFUND or ROLLBACK names what it reverses. */
  predicate KindFits(c: RawCommand) {
    || Spells(c.kind, "BET") || Spells(c.kind, "WIN") || Spells(c.kind, "LOSS")
    || ((Spells(c.kind, "REFUND") || Spells(c.kind, "ROLLBACK")) && c.refExternal != "")
  }

  predicate IsNormal(c: RawCommand) {
    && ParseID(c.playerId).Ok? && ParseID(c.walletId).Ok? && NamesFit(c) && Bytes(c.refExternal) <= 256
    && c.money.currency in {BRL, USD, EUR} && c.money.minor >= 0 && KindFits(c)
  }

  /** Which commands are normal, and for every other one the first thing in order that is wrong with it. */
  lemma NormalizationTable(c: RawCommand)
    ensures var r := NormalizeCommand(Typed(c));
      var identified := ParseID(c.playerId).Ok? && ParseID(c.walletId).Ok?;
      var named := identified && NamesFit(c) && Bytes(c.refExternal) <= 256;
      var priced := named && c.money.currency in {BRL, USD, EUR} && c.money.minor >= 0;
      var reversal := Spells(c.kind, "REFUND") || Spells(c.kind, "ROLLBACK");
      && (r.Ok? <==> IsNormal(c))
      && (r == Fail(INVALID_ID) <==> !identified)
      && (r == Fail(INVALID_INPUT) <==> identified && !named)
      && (r == Fail(INVALID_CURRENCY) <==> named && c.money.currency !in {BRL, USD, EUR})
      && (r == Fail(INVALID_AMOUNT) <==> named && c.money.currency in {BRL, USD, EUR} && c.money.minor < 0)
      && (r == Fail(INVALID_KIND) <==>
            priced && !reversal && !Spells(c.kind, "BET") && !Spells(c.kind, "WIN") && !Spells(c.kind, "LOSS"))
      && (r == Fail(REFERENCE_REQUIRED) <==> priced && reversal && c.refExternal == "")
  {
    hide Bytes;
    hide IsSpace;
    hide Spells;
    hide ParseID;
    hide KindOf;
    hide UpperText;
    KindIsSpelled(c.kind);
    FiveNames(c);
  }

  /** A normal command says what its texts say, with its external id for a correlation that it lacks. */
  lemma NormalizedSays(c: RawCommand)
    requires NormalizeCommand(Typed(c)).Ok?
    ensures var n := NormalizeCommand(Typed(c)).value;
      && n.providerId == c.providerId && n.externalId == c.externalId && n.idempotencyKey == c.idempotencyKey
      && Ok(n.playerId) == ParseID(c.playerId) && Ok(n.walletId) == ParseID(c.walletId)
      && n.roundId == c.roundId && n.gameId == c.gameId && n.money == c.money && n.refExternal == c.refExternal
      && n.kind.Some? && n.kind.value in {BET, WIN, LOSS, REFUND, ROLLBACK}
      && (n.kind.value == BET <==> Spells(c.kind, "BET")) && (n.kind.value == WIN <==> Spells(c.kind, "WIN"))
      && (n.kind.value == LOSS <==> Spells(c.kind, "LOSS")) && (n.kind.value == REFUND <==> Spells(c.kind, "REFUND"))
      && (n.kind.value == ROLLBACK <==> Spells(c.kind, "ROLLBACK"))
      && n.trace.correlation == (if c.trace.correlation == "" then c.externalId else c.trace.correlation)
      && n.trace.causation == c.trace.causation
  {
    hide TextIdentity;
    hide Spells;
    hide ParseID;
    hide KindOf;
    hide UpperText;
    KindIsSpelled(c.kind);
  }

  lemma FiveNames(c: RawCommand)
    ensures NamesFit(c) <==>
      && TextIdentity(c.providerId) && TextIdentity(c.externalId) && TextIdentity(c.idempotencyKey)
      && TextIdentity(c.roundId) && TextIdentity(c.gameId)
  {
    hide Bytes;
    hide IsSpace;
    var names := [c.providerId, c.externalId, c.idempotencyKey, c.roundId, c.gameId];
    assert names[0] == c.providerId && names[1] == c.externalId && names[2] == c.idempotencyKey;
    assert names[3] == c.roundId && names[4] == c.gameId;
  }

  /** The text identities, one after the other. */
  method CheckIdentities(identities: seq<string>) returns (ok: bool)
    ensures ok <==> forall i :: 0 <= i < |identities| ==> TextIdentity(identities[i])
  {
    for i := 0 to |identities|
      invariant forall j :: 0 <= j < i ==> TextIdentity(identities[j])
    {
      if !TextIdentity(identities[i]) {
        return false;
      }
    }
    return true;
  }

  /** Everything after the identifiers, of a command whose kind is in upper case. */
  method CheckContent(c: RawCommand) returns (e: Code)
    ensures e == ContentError(Typed(c).(kind := KindOf(c.kind)))
  {
    hide Bytes;
    hide TextIdentity;
    hide KindOf;
    hide IdOf;
    hide UpperText;
    KindIsExternal(c.kind);
    var identities := [c.providerId, c.externalId, c.idempotencyKey, c.roundId, c.gameId];
    assert identities[0] == c.providerId && identities[1] == c.externalId && identities[2] == c.idempotencyKey;
    assert identities[3] == c.roundId && identities[4] == c.gameId;
    var identified := CheckIdentities(identities);
    if !identified {
      return INVALID_INPUT;
    }
    if Bytes(c.refExternal) > 256 {
      return INVALID_INPUT;
    }
    if !c.money.Valid() {
      return INVALID_CURRENCY;
    }
    if c.money.minor < 0 {
      return INVALID_AMOUNT;
    }
    if KindOf(c.kind) == None {
      return INVALID_KIND;
    }
    if (KindOf(c.kind) == Some(REFUND) || KindOf(c.kind) == Some(ROLLBACK)) && c.refExternal == "" {
      return REFERENCE_REQUIRED;
    }
    return NoCode;
  }

  method Normalize(command: RawCommand) returns (r: Result<RawCommand>)
    ensures r.Ok? <==> IsNormal(command)
    ensures r.Ok? ==> r.value == Canonical(command) && NormalizeCommand(Typed(command)) == Ok(Typed(r.value))
    ensures r.Fail? ==> NormalizeCommand(Typed(command)) == Fail(r.code)
  {
    hide ParseID;
    hide Render;
    hide ContentError;
    hide Canonical;
    hide UpperText;
    hide LowerHexes;
    hide KindOf;
    hide IsNormal;
    hide Spells;
    NormalizationTable(command);
    var c := command;
    var player := ParseID(c.playerId);
    if player.Fail? {
      return Fail(player.code);
    }
    var wallet := ParseID(c.walletId);
    if wallet.Fail? {
      return Fail(wallet.code);
    }
    RenderParsed(c.playerId);
    RenderParsed(c.walletId);
    c := c.(playerId := Render(player.value), walletId := Render(wallet.value), kind := UpperText(c.kind));
    var e := CheckContent(c);
    SameContent(Typed(c).(kind := KindOf(c.kind)), Typed(command));
    if e != NoCode {
      return Fail(e);
    }
    if c.trace.correlation == "" {
      c := c.(trace := c.trace.(correlation := c.externalId));
    }
    CanonicalIs(command, c);
    return Ok(c);
  }

  /** Identifiers and trace have no part in the content. */
  lemma SameContent(c: Command, d: Command)
    requires c == d.(playerId := c.playerId, walletId := c.walletId, trace := c.trace)
    ensures ContentError(c) == ContentError(d)
  {
  }

  /** Rendering, upper-casing and the correlation lead to the canonical command, and change no meaning. */
  lemma CanonicalIs(c: RawCommand, d: RawCommand)
    requires ParseID(c.playerId).Ok? && ParseID(c.walletId).Ok?
    requires d == c.(playerId := LowerHexes(c.playerId), walletId := LowerHexes(c.walletId), kind := UpperText(c.kind),
        trace := d.trace)
    requires d.trace == if c.trace.correlation == "" then c.trace.(correlation := c.externalId) else c.trace
    ensures d == Canonical(c) && Typed(d) == Typed(c).(trace := d.trace)
  {
    CanonicalIsTyped(c);
  }

  /** Upper-casing and rendering change no meaning. */
  lemma CanonicalIsTyped(c: RawCommand)
    requires ParseID(c.playerId).Ok? && ParseID(c.walletId).Ok?
    ensures Typed(Canonical(c)) == Typed(c).(trace := Canonical(c).trace)
    ensures Canonical(Canonical(c)) == Canonical(c).(trace := Canonical(Canonical(c)).trace)
  {
    assert UpperText(UpperText(c.kind)) == UpperText(c.kind);
    LowerNames(c.playerId);
    LowerNames(c.walletId);
  }

  lemma LowerNames(text: string)
    requires ParseID(text).Ok?
    ensures ParseID(LowerHexes(text)) == ParseID(text) && LowerHexes(LowerHexes(text)) == LowerHexes(text)
  {
    RenderParsed(text);
    ParseRendered(ParseID(text).value);
    RenderParsed(LowerHexes(text));
  }

  /** A command normalized by the transport is left as it is when it is processed, and has a correlation. */
  lemma NormalizedIsStable(c: RawCommand)
    requires NormalizeCommand(Typed(c)).Ok?
    ensures NormalizeCommand(Typed(Canonical(c))) == NormalizeCommand(Typed(c)) == Ok(Typed(Canonical(c)))
    ensures Canonical(Canonical(c)) == Canonical(c) && Canonical(c).trace.correlation != ""
  {
    CanonicalIsTyped(c);
  }

  lemma KindsDiffer(s: string, t: string)
    requires KindOf(s).Some? && KindOf(s) == KindOf(t)
    ensures s == t
  {
  }

  /**
   * Two commands have the same financial hash exactly if their canonical forms differ at most in idempotency key and
   * transport metadata: neither the spelling of identifiers nor that of the kind matters.
   */
  lemma HashCovers(c: RawCommand, d: RawCommand)
    requires NormalizeCommand(Typed(c)).Ok? && NormalizeCommand(Typed(d)).Ok?
    ensures PayloadHashOf(Typed(c)) == PayloadHashOf(Typed(d)) <==>
      Canonical(d) == Canonical(c).(idempotencyKey := d.idempotencyKey, trace := Canonical(d).trace)
  {
    SameIdentifier(c.playerId, d.playerId);
    SameIdentifier(c.walletId, d.walletId);
    if PayloadHashOf(Typed(c)) == PayloadHashOf(Typed(d)) {
      KindsDiffer(UpperText(c.kind), UpperText(d.kind));
    }
  }

  /**
   * Two queue messages have the same hash exactly if their types, times and canonical commands agree, idempotency key
   * included and transport metadata aside.
   */
  lemma MessageHashCovers(messageType: string, at: Time, c: RawCommand, messageType': string, at': Time, d: RawCommand)
    requires NormalizeCommand(Typed(c)).Ok? && NormalizeCommand(Typed(d)).Ok?
    ensures InboxHash(messageType, at, Typed(c)) == InboxHash(messageType', at', Typed(d)) <==>
      messageType == messageType' && at == at' && Canonical(d) == Canonical(c).(trace := Canonical(d).trace)
  {
    SameIdentifier(c.playerId, d.playerId);
    SameIdentifier(c.walletId, d.walletId);
    if Typed(c).(trace := NO_TRACE) == Typed(d).(trace := NO_TRACE) {
      assert Typed(c).kind == Typed(d).kind;
      KindsDiffer(UpperText(c.kind), UpperText(d.kind));
    }
  }
}
