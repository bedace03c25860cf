/** `process_scores`: the guest, card and whitelist gates, then one import
    score per played track. The current card and the time of the submission
    are parameters (the host's card reader and the clock are not part of
    this model). */
module ScoresHandler {
  import opened Wrappers
  import opened Ints
  import opened Decimal
  import opened Game
  import opened Tachi
  import opened Config
  import opened Submission

  /** The match type of every submitted score: the identifier is the game's
      own music id. */
  const MatchType := "sdvxInGameID"

  /** A single track is a one-element list; a list is kept as it is. */
  function TrackList(tracks: Either<Track, seq<Track>>): (r: seq<Track>)
    ensures tracks.Left? ==> r == [tracks.left]
    ensures tracks.Right? ==> r == tracks.right
  {
    match tracks
    case Left(t) => [t]
    case Right(ts) => ts
  }

  /** The import score of one track. */
  function ToImportScore(t: Track, timeAchieved: nat): (s: ImportScore)
    ensures ParseU64(s.identifier) == Some(t.musicId)
    ensures |s.identifier| > 0 && AllDigits(s.identifier) && (|s.identifier| > 1 ==> s.identifier[0] != '0')
    ensures s.score == t.score && s.matchType == MatchType && s.timeAchieved == timeAchieved
    ensures 1 <= t.clearType <= 5 ==> LampCode(s.lamp) == t.clearType
    ensures !(1 <= t.clearType <= 5) ==> s.lamp == Failed
    ensures t.musicType <= 4 ==> DifficultyCode(s.difficulty) == t.musicType
    ensures t.musicType > 4 ==> s.difficulty == Novice
    ensures s.judgements.critical == t.critical && s.judgements.near == t.near && s.judgements.miss == t.error
    ensures s.hitMeta.fast == t.judge[0] && s.hitMeta.slow == t.judge[6] && s.hitMeta.maxCombo == t.maxChain
    ensures s.hitMeta.exScore.Some? <==> t.exScore != 0
    ensures s.hitMeta.exScore.GetOr(0) == t.exScore
  {
    ParseU64OfNatToString(t.musicId);
    ImportScore(
      t.score,
      LampFrom(t.clearType),
      MatchType,
      NatToString(t.musicId),
      DifficultyFrom(t.musicType),
      timeAchieved,
      Judgements(t.critical, t.near, t.error),
      HitMeta(t.judge[0], t.judge[6], t.maxChain, if t.exScore != 0 then Some(t.exScore) else None))
  }

  /** The scores of an import, one per track and in track order. */
  function ImportScores(tracks: seq<Track>, timeAchieved: nat): (r: seq<ImportScore>)
    ensures |r| == |tracks|
    ensures forall i :: 0 <= i < |tracks| ==> r[i] == ToImportScore(tracks[i], timeAchieved)
  {
    seq(|tracks|, i requires 0 <= i < |tracks| => ToImportScore(tracks[i], timeAchieved))
  }

  /** `process_scores`: a guest play, a missing card or a card outside a
      non-empty whitelist skips the submission; otherwise every track is
      submitted with the default metadata and no class. */
  function ProcessScores(scores: GameScores, currentCard: Option<string>, whitelist: seq<string>,
                         timeAchieved: nat): (o: Outcome)
    ensures o.Sent? <==> scores.refId.Some? && currentCard.Some? && Admits(whitelist, currentCard.value)
    ensures scores.refId.None? ==> o == Skipped(GuestPlay)
    ensures scores.refId.Some? && currentCard.None? ==> o == Skipped(NoCard)
    ensures scores.refId.Some? && currentCard.Some? && !Admits(whitelist, currentCard.value) ==>
      o == Skipped(NotWhitelisted(currentCard.value))
    ensures o.Sent? ==>
      && o.payload.meta == DefaultMeta()
      && o.payload.classes.None?
      && o.payload.scores == ImportScores(TrackList(scores.tracks), timeAchieved)
  {
    if scores.refId.None? then Skipped(GuestPlay)
    else if currentCard.None? then Skipped(NoCard)
    else if !Admits(whitelist, currentCard.value) then Skipped(NotWhitelisted(currentCard.value))
    else Sent(Tachi.Import(DefaultMeta(), None, ImportScores(TrackList(scores.tracks), timeAchieved)))
  }

  /** An empty whitelist admits any card: a non-guest play with a card is
      always submitted. */
  lemma EmptyWhitelistAdmitsAll(scores: GameScores, card: string, timeAchieved: nat)
    requires scores.refId.Some?
    ensures ProcessScores(scores, Some(card), [], timeAchieved).Sent?
  {
  }

  /** A submitted import has one score per track, in track order, and each
      score's identifier reads back as its track's music id. */
  lemma SubmittedScoresFollowTracks(scores: GameScores, card: Option<string>, whitelist: seq<string>,
                                    timeAchieved: nat, i: nat)
    requires ProcessScores(scores, card, whitelist, timeAchieved).Sent?
    requires i < |TrackList(scores.tracks)|
    ensures var imported := ProcessScores(scores, card, whitelist, timeAchieved).payload.scores;
      && |imported| == |TrackList(scores.tracks)|
      && ParseU64(imported[i].identifier) == Some(TrackList(scores.tracks)[i].musicId)
      && imported[i].timeAchieved == timeAchieved
  {
  }

  /** Tracks of different songs get different identifiers. */
  lemma IdentifiersSeparateSongs(t1: Track, t2: Track, timeAchieved: nat)
    requires t1.musicId != t2.musicId
    ensures ToImportScore(t1, timeAchieved).identifier != ToImportScore(t2, timeAchieved).identifier
  {
    var a, b := ToImportScore(t1, timeAchieved), ToImportScore(t2, timeAchieved);
    assert ParseU64(a.identifier) != ParseU64(b.identifier);
  }

  /** A single track and the one-element list of it submit the same import. */
  lemma SingleTrackIsOneElementList(scores: GameScores, t: Track, card: Option<string>,
                                    whitelist: seq<string>, timeAchieved: nat)
    ensures ProcessScores(GameScores(scores.refId, Left(t)), card, whitelist, timeAchieved)
         == ProcessScores(GameScores(scores.refId, Right([t])), card, whitelist, timeAchieved)
  {
  }
}
