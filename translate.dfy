/**
 * translate.go: the translation options of an `Error` and the writer
 * that emits its (translated) message. `DefaultLocalizer`, a package
 * variable, is passed in as `dflt`. The lookup goes to the selected
 * localizer (see `Localization.TranslateAsWritten` for the code as
 * written, which sends it to the error's own one).
 */
module Translate {
  import opened Wrappers
  import Localization
  import CommonError
  import Text

  /** `SetTranslateContext(tctx)`: a nil `e` is left alone; otherwise only the translate context changes. */
  method SetTranslateContext(e: CommonError.Error?, tctx: Option<Localization.TranslateContext>)
    modifies e
    ensures e != null ==> e.Snapshot() == old(e.Snapshot()).(translateContext := tctx)
  {
    if e == null {
      return;
    }
    e.translateContext := tctx;
  }

  /** `SetLocalizer(l)`: a nil `e` is left alone; otherwise only the localizer changes. */
  method SetLocalizer(e: CommonError.Error?, l: Option<Localization.Localizer>)
    modifies e
    ensures e != null ==> e.Snapshot() == old(e.Snapshot()).(localizer := l)
  {
    if e == null {
      return;
    }
    e.localizer := l;
  }

  /**
   * `WriteTranslateMsg(w)`: what is written to `w` and the byte count
   * `io.WriteString` returns, the length of the text in UTF-8. An empty
   * message writes nothing; otherwise the translation, or the raw message
   * when no localizer is set or the lookup fails.
   */
  method WriteTranslateMsg(e: CommonError.Error, dflt: Option<Localization.Localizer>)
    returns (n: nat, written: string)
    ensures written == Localization.Translate(e.msg, e.id, e.localizer, dflt, e.translateContext)
    ensures n == Text.Utf8Len(written)
    ensures |written| <= n <= 4 * |written|
    ensures n == 0 <==> |written| == 0
    ensures |e.msg| == 0 ==> n == 0
  {
    var s := e.msg;
    if |s| == 0 {
      return 0, [];
    }
    var localizer: Option<Localization.Localizer> := None;
    if e.localizer.Some? {
      localizer := e.localizer;
    } else if dflt.Some? {
      localizer := dflt;
    }
    if localizer.None? {
      return Text.Utf8Len(s), s;
    }
    var conf := Localization.LocalizeConfig(e.id, map[], None, None);
    if e.translateContext.Some? {
      var t := e.translateContext.value;
      conf := conf.(defaultMessage := t.defaultMessage, pluralCount := t.pluralCount, templateData := t.templateData);
    }
    var msg := localizer.value(conf);
    if msg.None? {
      return Text.Utf8Len(s), s;
    }
    return Text.Utf8Len(msg.value), msg.value;
  }

  /** `TranslateMsg()`: exactly the text `WriteTranslateMsg` writes. */
  method TranslateMsg(e: CommonError.Error, dflt: Option<Localization.Localizer>) returns (s: string)
    ensures s == Localization.Translate(e.msg, e.id, e.localizer, dflt, e.translateContext)
  {
    var _, written := WriteTranslateMsg(e, dflt);
    s := written;
  }
}
