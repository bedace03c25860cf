/** `process_save` (src/handlers/save.rs) and `process_course` (src/save.rs):
    the two functions have the same body, modelled once here. The card gated
    is the save's own reference, not the inserted card. */
module ClassUpdate {
  import opened Wrappers
  import opened Ints
  import opened Game
  import opened Tachi
  import opened Config
  import opened Submission

  /** A save whose card is outside a non-empty whitelist is skipped;
      otherwise the import carries the skill level as the dan class and no
      scores. */
  function ProcessClassUpdate(save: GameSave, whitelist: seq<string>): (o: Outcome)
    ensures o.Sent? <==> Admits(whitelist, save.refId)
    ensures o.Skipped? ==> o.reason == NotWhitelisted(save.refId)
    ensures o.Sent? ==>
      && o.payload.meta == DefaultMeta()
      && o.payload.classes == Some(ImportClasses(SkillLevelFrom(save.skillLevel)))
      && o.payload.scores == []
  {
    if !Admits(whitelist, save.refId) then Skipped(NotWhitelisted(save.refId))
    else Sent(Tachi.Import(DefaultMeta(), Some(ImportClasses(SkillLevelFrom(save.skillLevel))), []))
  }

  /** An empty whitelist always proceeds to the import. */
  lemma EmptyWhitelistSends(save: GameSave)
    ensures ProcessClassUpdate(save, []).Sent?
  {
  }

  /** A skill level the game can report (1 to 12) is carried exactly: the
      submitted dan's discriminant is that level; any other level is
      submitted as the first dan. */
  lemma DanCarriesSkillLevel(save: GameSave, whitelist: seq<string>)
    requires Admits(whitelist, save.refId)
    ensures var dan := ProcessClassUpdate(save, whitelist).payload.classes.value.dan;
      && (1 <= save.skillLevel <= 12 ==> SkillLevelCode(dan) == save.skillLevel)
      && (!(1 <= save.skillLevel <= 12) ==> dan == First)
  {
  }
}
