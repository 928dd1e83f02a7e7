/** The gate sequence of `on_group_message`: filters that record nothing,
    a snapshot `history + [msg]`, a text match and an image match over that
    snapshot, the self-repost, unique-sender and cooldown gates, the
    optional judgment call, then exactly one append of the new record.

    The event, the extraction result, the regex and command filters, the
    embedding and image services and the judgment model are inputs: the
    filters as booleans, the services as the values they returned, the
    judgment as a function from the request it is shown to its verdict
    (a provider failure is a `false` verdict). `now` is the one clock
    reading of the message. */
module Pipeline {
  import opened Records
  import opened MatchEngine
  import opened Store

  /** How many records of context each side of the judgment prompt gets. */
  const ContextWidth: nat := 40

  /** The configuration keys the handler reads. */
  datatype Config = Config(
    blockedGroups: seq<string>,
    minTextLength: int,
    textThreshold: real,
    imageThreshold: real,
    minUniqueSenders: int,
    cooldownSeconds: real,
    enableLlmJudge: bool)

  /** The defaults the handler falls back to for missing keys. */
  const DefaultConfig := Config([], 2, 0.95, 0.90, 3, 3600.0, true)

  /** What `_extract_content` yields for a message it can use. */
  datatype Extracted = Extracted(content: string, imageUrl: Option<string>)

  /** The facts of one incoming group message. `senderName` is "" when the
      platform gives none; `extracted` is None when extraction fails or the
      message is a sticker. */
  datatype Event = Event(
    groupId: string,
    senderId: string,
    senderName: string,
    extracted: Option<Extracted>,
    matchesIgnoreRegex: bool,
    isPluginCommand: bool,
    recordId: string)

  /** What the embedding service and `_cache_image` returned. */
  datatype Services = Services(
    embedding: Option<seq<real>>,
    cachedImage: Option<string>,
    imageHash: Option<string>)

  datatype Outcome = NotRecorded | Silent | Remind

  datatype MatchKind = TextMatch | ImageMatch

  /** The match the gates are applied to, and where it sits in the snapshot. */
  datatype Chosen = Chosen(kind: MatchKind, record: Record, index: int)

  /** Everything the judgment prompt is built from. */
  datatype JudgeRequest = JudgeRequest(
    content: string,
    senderName: string,
    matched: Record,
    historyContext: seq<ContextEntry>,
    recentContext: seq<ContextEntry>,
    uniqueCount: nat)

  /** The handler's verdict and the record it appends, if any. */
  datatype Decision = Decision(outcome: Outcome, appended: Option<Record>)

  // ---------------------------------------------------------------------
  // Filters

  /** `_is_group_enabled`: the group is not on the block list. */
  function IsGroupEnabled(group: string, blocked: seq<string>): (r: bool)
    ensures r <==> forall i :: 0 <= i < |blocked| ==> blocked[i] != group
  {
    group !in blocked
  }

  /** The image URL is present in the Python truthiness sense. */
  predicate HasImageUrl(ex: Extracted) {
    ex.imageUrl.Some? && ex.imageUrl.value != ""
  }

  /** The group, content, length, regex and command filters, in order. */
  predicate PassesFilters(cfg: Config, ev: Event) {
    && ev.groupId != ""
    && IsGroupEnabled(ev.groupId, cfg.blockedGroups)
    && ev.extracted.Some?
    && (HasImageUrl(ev.extracted.value) || |ev.extracted.value.content| >= cfg.minTextLength)
    && !ev.matchesIgnoreRegex
    && !ev.isPluginCommand
  }

  // ---------------------------------------------------------------------
  // The new record and the match

  /** `event.get_sender_name() or sender_id`. */
  function SenderName(ev: Event): (name: string)
    ensures ev.senderName != "" ==> name == ev.senderName
    ensures ev.senderName == "" ==> name == ev.senderId
  {
    if ev.senderName != "" then ev.senderName else ev.senderId
  }

  /** The record built for the message: the image fields are filled only
      when there is an image URL to cache. */
  function NewRecord(ev: Event, ex: Extracted, svc: Services, now: real): (msg: Record)
    ensures msg.senderId == ev.senderId && msg.content == ex.content && msg.timestamp == now
    ensures msg.hasImage <==> ex.imageUrl.Some?
    ensures !HasImageUrl(ex) ==> msg.imageHash.None? && msg.cachedImage.None?
  {
    var url := HasImageUrl(ex);
    Record(ev.recordId, ev.senderId, SenderName(ev), ex.content, now, svc.embedding,
           ex.imageUrl.Some?,
           if url then svc.cachedImage else None,
           if url then svc.imageHash else None)
  }

  /** The text scan, run only when the message has an embedding. */
  function TextCandidate(snapshot: seq<Record>, msg: Record, cfg: Config,
                         cosine: (seq<real>, seq<real>) -> real): Match
  {
    if HasEmbedding(msg) then BestTextMatch(snapshot, EmbeddingOf(msg), cfg.textThreshold, 1, cosine)
    else NoMatch
  }

  /** The image scan, run only when the message has an image hash. */
  function ImageCandidate(snapshot: seq<Record>, msg: Record, cfg: Config): Match
  {
    if HasImageHash(msg) then BestImageMatch(snapshot, ImageHashOf(msg), cfg.imageThreshold, 1)
    else NoMatch
  }

  /** The text match stands unless there is none or the image match is
      strictly older. */
  function SelectMatch(snapshot: seq<Record>, msg: Record, cfg: Config,
                       cosine: (seq<real>, seq<real>) -> real): Option<Chosen>
  {
    var text := TextCandidate(snapshot, msg, cfg, cosine);
    var image := ImageCandidate(snapshot, msg, cfg);
    if text.record.Some? &&
       !(image.record.Some? && image.record.value.timestamp < text.record.value.timestamp)
    then Some(Chosen(TextMatch, text.record.value, text.index))
    else if image.record.Some? then Some(Chosen(ImageMatch, image.record.value, image.index))
    else None
  }

  /** The distinct senders of matching content in the snapshot, counted the
      way the chosen match was found (the trailing `1` is the handler's
      fallback when the fingerprint of that kind is missing). */
  function UniqueCount(snapshot: seq<Record>, msg: Record, kind: MatchKind, cfg: Config,
                       cosine: (seq<real>, seq<real>) -> real): nat
  {
    if kind == TextMatch && HasEmbedding(msg) then
      |SenderIds(snapshot, TextQualifies(EmbeddingOf(msg), cfg.textThreshold, cosine))|
    else if kind == ImageMatch && HasImageHash(msg) then
      |SenderIds(snapshot, ImageQualifies(ImageHashOf(msg), cfg.imageThreshold))|
    else 1
  }

  /** The request shown to the judgment model. */
  function MakeRequest(msg: Record, c: Chosen, snapshot: seq<Record>, unique: nat): JudgeRequest
  {
    JudgeRequest(msg.content, msg.senderName, c.record,
                 ContextAround(snapshot, c.index, ContextWidth, ContextWidth),
                 RecentContext(snapshot, ContextWidth), unique)
  }

  // ---------------------------------------------------------------------
  // The decision

  /** The gates after the append is settled: no match, self-repost, too
      few senders, cooldown, then the judgment (or none when it is off). */
  function Verdict(cfg: Config, ev: Event, msg: Record, snapshot: seq<Record>, now: real,
                   cosine: (seq<real>, seq<real>) -> real, judge: JudgeRequest -> bool): Outcome
  {
    var chosen := SelectMatch(snapshot, msg, cfg, cosine);
    if chosen.None? then Silent
    else
      var c := chosen.value;
      var unique := UniqueCount(snapshot, msg, c.kind, cfg, cosine);
      if ev.senderId == c.record.senderId then Silent
      else if unique < cfg.minUniqueSenders then Silent
      else if now - c.record.timestamp < cfg.cooldownSeconds then Silent
      else if !cfg.enableLlmJudge || judge(MakeRequest(msg, c, snapshot, unique)) then Remind
      else Silent
  }

  /** `on_group_message` on the loaded history of the group. */
  function Decide(cfg: Config, ev: Event, svc: Services, history: seq<Record>, now: real,
                  cosine: (seq<real>, seq<real>) -> real, judge: JudgeRequest -> bool): Decision
  {
    if !PassesFilters(cfg, ev) then Decision(NotRecorded, None)
    else
      var msg := NewRecord(ev, ev.extracted.value, svc, now);
      Decision(Verdict(cfg, ev, msg, history + [msg], now, cosine, judge), Some(msg))
  }

  // ---------------------------------------------------------------------
  // Properties of the decision

  /** Nothing is recorded exactly when a filter rejects the message, and
      every message past the filters is appended, as its own new record. */
  lemma RecordedIffFiltersPass(cfg: Config, ev: Event, svc: Services, history: seq<Record>, now: real,
                               cosine: (seq<real>, seq<real>) -> real, judge: JudgeRequest -> bool)
    ensures var d := Decide(cfg, ev, svc, history, now, cosine, judge);
      && (d.outcome == NotRecorded <==> !PassesFilters(cfg, ev))
      && (d.appended.None? <==> d.outcome == NotRecorded)
      && (d.appended.Some? ==>
            d.appended.value.senderId == ev.senderId &&
            d.appended.value.content == ev.extracted.value.content &&
            d.appended.value.timestamp == now)
  {
  }

  /** Matching on `history + [msg]` with exclude_recent = 1 never picks the
      new message: the chosen record is one of the history's, at its index. */
  lemma MatchIsNeverTheNewMessage(history: seq<Record>, msg: Record, cfg: Config,
                                  cosine: (seq<real>, seq<real>) -> real)
    ensures var chosen := SelectMatch(history + [msg], msg, cfg, cosine);
      chosen.Some? ==> 0 <= chosen.value.index < |history| &&
                       chosen.value.record == history[chosen.value.index]
  {
    if HasEmbedding(msg) {
      var q := EmbeddingOf(msg);
      ExcludedTailNeverMatched(history, msg, TextEligible(q), TextScore(q, cosine), cfg.textThreshold);
    }
    if HasImageHash(msg) {
      var h := ImageHashOf(msg);
      ExcludedTailNeverMatched(history, msg, ImageEligible(), ImageScore(h), cfg.imageThreshold);
    }
  }

  /** Precedence between the two scans: the image match replaces the text
      match exactly when there is no text match or the image match is
      strictly older; with neither, there is no match. */
  lemma MatchPrecedence(snapshot: seq<Record>, msg: Record, cfg: Config,
                        cosine: (seq<real>, seq<real>) -> real)
    ensures var text, image := TextCandidate(snapshot, msg, cfg, cosine), ImageCandidate(snapshot, msg, cfg);
      var chosen := SelectMatch(snapshot, msg, cfg, cosine);
      && (chosen.None? <==> text.record.None? && image.record.None?)
      && (chosen.Some? && chosen.value.kind == ImageMatch <==>
            image.record.Some? &&
            (text.record.None? || image.record.value.timestamp < text.record.value.timestamp))
      && (chosen.Some? && chosen.value.kind == TextMatch ==>
            text.record.Some? && chosen.value.record == text.record.value && chosen.value.index == text.index)
      && (chosen.Some? && chosen.value.kind == ImageMatch ==>
            chosen.value.record == image.record.value && chosen.value.index == image.index)
  {
  }

  /** A text match needs an embedding and an image match an image hash, so
      the handler's fallback count of 1 is never used. */
  lemma UniqueCountOfChosenKind(snapshot: seq<Record>, msg: Record, cfg: Config,
                                cosine: (seq<real>, seq<real>) -> real)
    requires SelectMatch(snapshot, msg, cfg, cosine).Some?
    ensures var c := SelectMatch(snapshot, msg, cfg, cosine).value;
      UniqueCount(snapshot, msg, c.kind, cfg, cosine) ==
        if c.kind == TextMatch
        then |SenderIds(snapshot, TextQualifies(EmbeddingOf(msg), cfg.textThreshold, cosine))|
        else |SenderIds(snapshot, ImageQualifies(ImageHashOf(msg), cfg.imageThreshold))|
  {
    var text, image := TextCandidate(snapshot, msg, cfg, cosine), ImageCandidate(snapshot, msg, cfg);
    if !HasEmbedding(msg) {
      assert text == NoMatch;
    }
    if !HasImageHash(msg) {
      assert image == NoMatch;
    }
  }

  /** A reminder is sent exactly when every filter and gate passes and the
      judgment (when enabled) says so. */
  lemma RemindIffAllGatesPass(cfg: Config, ev: Event, svc: Services, history: seq<Record>, now: real,
                              cosine: (seq<real>, seq<real>) -> real, judge: JudgeRequest -> bool)
    ensures Decide(cfg, ev, svc, history, now, cosine, judge).outcome == Remind <==>
      && PassesFilters(cfg, ev)
      && var msg := NewRecord(ev, ev.extracted.value, svc, now);
         var snapshot := history + [msg];
         var chosen := SelectMatch(snapshot, msg, cfg, cosine);
         && chosen.Some?
         && ev.senderId != chosen.value.record.senderId
         && UniqueCount(snapshot, msg, chosen.value.kind, cfg, cosine) >= cfg.minUniqueSenders
         && now - chosen.value.record.timestamp >= cfg.cooldownSeconds
         && (!cfg.enableLlmJudge ||
             judge(MakeRequest(msg, chosen.value, snapshot,
                               UniqueCount(snapshot, msg, chosen.value.kind, cfg, cosine))))
  {
  }

  /** Each blocking gate on its own rules out a reminder. */
  lemma BlockingGatesSilence(cfg: Config, ev: Event, svc: Services, history: seq<Record>, now: real,
                             cosine: (seq<real>, seq<real>) -> real, judge: JudgeRequest -> bool)
    requires PassesFilters(cfg, ev)
    ensures var msg := NewRecord(ev, ev.extracted.value, svc, now);
      var snapshot := history + [msg];
      var chosen := SelectMatch(snapshot, msg, cfg, cosine);
      var d := Decide(cfg, ev, svc, history, now, cosine, judge);
      && (chosen.None? ==> d.outcome == Silent)
      && (chosen.Some? && ev.senderId == chosen.value.record.senderId ==> d.outcome == Silent)
      && (chosen.Some? &&
          UniqueCount(snapshot, msg, chosen.value.kind, cfg, cosine) < cfg.minUniqueSenders ==>
          d.outcome == Silent)
      && (chosen.Some? && now - chosen.value.record.timestamp < cfg.cooldownSeconds ==> d.outcome == Silent)
  {
  }

  /** With the judgment switched off, a message that passes every gate is
      always answered with a reminder, whatever the judge would say. */
  lemma JudgeOffRemindsOnAllGates(cfg: Config, ev: Event, svc: Services, history: seq<Record>, now: real,
                                  cosine: (seq<real>, seq<real>) -> real,
                                  judge1: JudgeRequest -> bool, judge2: JudgeRequest -> bool)
    requires !cfg.enableLlmJudge
    ensures Decide(cfg, ev, svc, history, now, cosine, judge1) ==
            Decide(cfg, ev, svc, history, now, cosine, judge2)
    ensures Decide(cfg, ev, svc, history, now, cosine, judge1).outcome != Remind ==>
      !PassesFilters(cfg, ev) ||
      var msg := NewRecord(ev, ev.extracted.value, svc, now);
      var snapshot := history + [msg];
      var chosen := SelectMatch(snapshot, msg, cfg, cosine);
      || chosen.None?
      || ev.senderId == chosen.value.record.senderId
      || UniqueCount(snapshot, msg, chosen.value.kind, cfg, cosine) < cfg.minUniqueSenders
      || now - chosen.value.record.timestamp < cfg.cooldownSeconds
  {
  }

  /** A message repeated by its own poster never triggers a reminder, even
      when it matches. */
  lemma SelfRepostNeverReminds(cfg: Config, ev: Event, svc: Services, history: seq<Record>, now: real,
                               cosine: (seq<real>, seq<real>) -> real, judge: JudgeRequest -> bool)
    requires forall i :: 0 <= i < |history| ==> history[i].senderId == ev.senderId
    ensures Decide(cfg, ev, svc, history, now, cosine, judge).outcome != Remind
  {
    if PassesFilters(cfg, ev) {
      var msg := NewRecord(ev, ev.extracted.value, svc, now);
      MatchIsNeverTheNewMessage(history, msg, cfg, cosine);
    }
  }

  /** Under the default configuration a reminder needs a match posted by
      someone else, at least three distinct senders of that content and
      a match at least an hour old, and the judgment's agreement. */
  lemma DefaultsRemindOnlyAfterThreeSendersAndAnHour(
    ev: Event, svc: Services, history: seq<Record>, now: real,
    cosine: (seq<real>, seq<real>) -> real, judge: JudgeRequest -> bool)
    ensures Decide(DefaultConfig, ev, svc, history, now, cosine, judge).outcome == Remind ==>
      && PassesFilters(DefaultConfig, ev)
      && var msg := NewRecord(ev, ev.extracted.value, svc, now);
         var snapshot := history + [msg];
         var chosen := SelectMatch(snapshot, msg, DefaultConfig, cosine);
         && chosen.Some?
         && chosen.value.record.senderId != ev.senderId
         && UniqueCount(snapshot, msg, chosen.value.kind, DefaultConfig, cosine) >= 3
         && now - chosen.value.record.timestamp >= 3600.0
         && judge(MakeRequest(msg, chosen.value, snapshot,
                              UniqueCount(snapshot, msg, chosen.value.kind, DefaultConfig, cosine)))
  {
    RemindIffAllGatesPass(DefaultConfig, ev, svc, history, now, cosine, judge);
  }

  // ---------------------------------------------------------------------
  // The handler over the store

  /** Both scans over the snapshot, then the precedence rule between them. */
  method ChooseMatch(snapshot: seq<Record>, msg: Record, cfg: Config,
                     cosine: (seq<real>, seq<real>) -> real)
    returns (matched: Option<Chosen>)
    ensures matched == SelectMatch(snapshot, msg, cfg, cosine)
  {
    var text := NoMatch;
    if HasEmbedding(msg) {
      text := FindBestMatch(snapshot, EmbeddingOf(msg), cfg.textThreshold, 1, cosine);
    }
    var image := NoMatch;
    if HasImageHash(msg) {
      image := FindSimilarImage(snapshot, ImageHashOf(msg), cfg.imageThreshold, 1);
    }
    matched := None;
    if text.record.Some? {
      matched := Some(Chosen(TextMatch, text.record.value, text.index));
    }
    if HasImageHash(msg) {
      if matched.None? && image.record.Some? {
        matched := Some(Chosen(ImageMatch, image.record.value, image.index));
      } else if matched.Some? && image.record.Some? &&
                image.record.value.timestamp < matched.value.record.timestamp {
        matched := Some(Chosen(ImageMatch, image.record.value, image.index));
      }
    }
  }

  /** The counter that matches the kind of the chosen match. */
  method CountForKind(snapshot: seq<Record>, msg: Record, kind: MatchKind, cfg: Config,
                      cosine: (seq<real>, seq<real>) -> real)
    returns (unique: nat)
    ensures unique == UniqueCount(snapshot, msg, kind, cfg, cosine)
  {
    var senders;
    if kind == TextMatch && HasEmbedding(msg) {
      unique, senders := CountUniqueSenders(snapshot, EmbeddingOf(msg), cfg.textThreshold, cosine);
    } else if kind == ImageMatch && HasImageHash(msg) {
      unique, senders := CountUniqueSendersByHash(snapshot, ImageHashOf(msg), cfg.imageThreshold);
    } else {
      unique := 1;
    }
  }

  /** Matching, the gates and the judgment on the snapshot `history + [msg]`. */
  method Evaluate(cfg: Config, ev: Event, msg: Record, snapshot: seq<Record>, now: real,
                  cosine: (seq<real>, seq<real>) -> real, judge: JudgeRequest -> bool)
    returns (outcome: Outcome)
    ensures outcome == Verdict(cfg, ev, msg, snapshot, now, cosine, judge)
  {
    var matched := ChooseMatch(snapshot, msg, cfg, cosine);
    if matched.None? {
      return Silent;
    }
    var c := matched.value;
    var unique := CountForKind(snapshot, msg, c.kind, cfg, cosine);
    if ev.senderId == c.record.senderId || unique < cfg.minUniqueSenders ||
       now - c.record.timestamp < cfg.cooldownSeconds {
      return Silent;
    }
    var shouldRemind := true;
    if cfg.enableLlmJudge {
      var historyContext := ContextAround(snapshot, c.index, ContextWidth, ContextWidth);
      var recentContext := RecentContext(snapshot, ContextWidth);
      shouldRemind := judge(JudgeRequest(msg.content, msg.senderName, c.record,
                                         historyContext, recentContext, unique));
    }
    outcome := if shouldRemind then Remind else Silent;
  }

  /** `on_group_message`: filter, load the group's history, decide on the
      snapshot, append the new record once, and report whether to remind.
      The append comes after the judgment and before the reminder is sent,
      on every path past the filters. */
  method OnGroupMessage(store: MessageStore, cfg: Config, ev: Event, svc: Services, now: real,
                        cosine: (seq<real>, seq<real>) -> real, judge: JudgeRequest -> bool)
    returns (outcome: Outcome)
    modifies store
    ensures var loaded := LoadedEntry(old(store.cache), old(store.disk), ev.groupId, now,
                                      store.dayOf, store.retentionDays);
      var d := Decide(cfg, ev, svc, loaded.messages, now, cosine, judge);
      && outcome == d.outcome
      && (d.appended.None? ==> store.cache == old(store.cache) && store.disk == old(store.disk))
      && (d.appended.Some? ==>
            var msg := d.appended.value;
            var msgs := loaded.messages + [msg];
            var day := store.dayOf(msg.timestamp);
            var dayMsgs := SameDay(msgs, store.dayOf, day);
            && store.cache == old(store.cache)[ev.groupId := CacheEntry(msgs, loaded.lastLoad)]
            && store.disk == if NeedsWrite(|dayMsgs|) then old(store.disk)[(ev.groupId, day) := dayMsgs]
                             else old(store.disk))
  {
    if !PassesFilters(cfg, ev) {
      return NotRecorded;
    }
    var group := ev.groupId;
    var history := store.Load(group, now);
    var msg := NewRecord(ev, ev.extracted.value, svc, now);
    outcome := Evaluate(cfg, ev, msg, history + [msg], now, cosine, judge);
    store.Append(group, msg, now);
  }
}
