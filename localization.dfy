/**
 * Message translation as `writeTranslateMsg` performs it: the choice
 * between a per-error localizer and `DefaultLocalizer`, the lookup
 * configuration built from the error's id and translate context, and the
 * fall-back to the raw message. The localizer itself (go-i18n) is an
 * arbitrary function that either yields a text or fails.
 */
module Localization {
  import opened Wrappers

  /** `TranslateContext`: template data, plural count, default message. */
  datatype TranslateContext = TranslateContext(
    templateData: map<string, string>,
    pluralCount: Option<int>,
    defaultMessage: Option<string>)

  /** `i18n.LocalizeConfig`, restricted to the fields the library sets. */
  datatype LocalizeConfig = LocalizeConfig(
    messageID: string,
    templateData: map<string, string>,
    pluralCount: Option<int>,
    defaultMessage: Option<string>)

  /** A localizer: `Some(text)` on success, `None` when it returns an error. */
  type Localizer = LocalizeConfig -> Option<string>

  /** The localizer in effect: the error's own one, else the default one. */
  function Select(own: Option<Localizer>, dflt: Option<Localizer>): (r: Option<Localizer>)
    ensures own.Some? ==> r == own
    ensures own.None? ==> r == dflt
  {
    if own.Some? then own else dflt
  }

  /** The lookup key is the id; the translate context's fields are copied in when present. */
  function Config(id: string, tctx: Option<TranslateContext>): (c: LocalizeConfig)
    ensures c.messageID == id
    ensures tctx.None? ==> c.templateData == map[] && c.pluralCount == None && c.defaultMessage == None
    ensures tctx.Some? ==>
      (c.templateData == tctx.value.templateData
       && c.pluralCount == tctx.value.pluralCount
       && c.defaultMessage == tctx.value.defaultMessage)
  {
    match tctx
    case None => LocalizeConfig(id, map[], None, None)
    case Some(t) => LocalizeConfig(id, t.templateData, t.pluralCount, t.defaultMessage)
  }

  /**
   * What `writeTranslateMsg` writes, with the lookup going to the selected
   * localizer: nothing for an empty message, the raw message when there is
   * no localizer or the lookup fails, the translation otherwise.
   */
  function Translate(msg: string, id: string, own: Option<Localizer>, dflt: Option<Localizer>,
                     tctx: Option<TranslateContext>): (r: string)
    ensures msg == [] ==> r == []
    ensures Select(own, dflt).None? ==> r == msg
    ensures msg != [] && Select(own, dflt).Some? ==>
              r == Select(own, dflt).value(Config(id, tctx)).GetOr(msg)
  {
    if |msg| == 0 then []
    else
      match Select(own, dflt)
      case None => msg
      case Some(l) =>
        match l(Config(id, tctx))
        case None => msg
        case Some(t) => t
  }

  /** A per-error localizer takes precedence: the default one is then irrelevant. */
  lemma OwnLocalizerWins(msg: string, id: string, own: Localizer, d1: Option<Localizer>,
                         d2: Option<Localizer>, tctx: Option<TranslateContext>)
    ensures Translate(msg, id, Some(own), d1, tctx) == Translate(msg, id, Some(own), d2, tctx)
  {
  }

  /** The result is always either the raw message or a text the localizer produced. */
  lemma RawOrLocalized(msg: string, id: string, own: Option<Localizer>, dflt: Option<Localizer>,
                       tctx: Option<TranslateContext>)
    ensures var r := Translate(msg, id, own, dflt, tctx);
            r == msg || (Select(own, dflt).Some? && Select(own, dflt).value(Config(id, tctx)) == Some(r))
  {
  }

  /**
   * Outcome of the code as written: either it writes a text, or it calls
   * `LocalizeWithTag` on a nil `*i18n.Localizer`, whose behaviour belongs
   * to go-i18n and is not part of this model.
   */
  datatype Outcome = Written(text: string) | NilLocalizerCall

  /**
   * `writeTranslateMsg` as written: the selection is made, but the lookup
   * is sent to the error's own localizer, so `LocalizeWithTag` is called on
   * a nil `*i18n.Localizer` when only the default one is set.
   */
  function TranslateAsWritten(msg: string, id: string, own: Option<Localizer>, dflt: Option<Localizer>,
                              tctx: Option<TranslateContext>): (r: Outcome)
    ensures r.NilLocalizerCall? <==> msg != [] && own.None? && dflt.Some?
  {
    if |msg| == 0 then Written([])
    else
      match Select(own, dflt)
      case None => Written(msg)
      case Some(_) =>
        match own
        case None => NilLocalizerCall
        case Some(l) =>
          match l(Config(id, tctx))
          case None => Written(msg)
          case Some(t) => Written(t)
  }

  /** Whenever the code as written does not fail, it writes what the corrected decision writes. */
  lemma AsWrittenAgreesWhenItWrites(msg: string, id: string, own: Option<Localizer>, dflt: Option<Localizer>,
                                    tctx: Option<TranslateContext>)
    requires TranslateAsWritten(msg, id, own, dflt, tctx).Written?
    ensures TranslateAsWritten(msg, id, own, dflt, tctx).text == Translate(msg, id, own, dflt, tctx)
  {
  }

  /** Counterexample: a non-empty message with only `DefaultLocalizer` set reaches the nil-localizer call as written, yet translates when corrected. */
  lemma DefaultOnlyCallsNilLocalizer()
    ensures var dflt: Localizer := c => Some("translated");
            TranslateAsWritten("boom", "ID", None, Some(dflt), None) == NilLocalizerCall
            && Translate("boom", "ID", None, Some(dflt), None) == "translated"
  {
  }
}
