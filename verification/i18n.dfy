/** Locale selection and message lookup (internal/i18n/i18n.go). The go-i18n
    bundle is reduced to a catalog from language code to message table;
    message templates are not expanded. */
module I18n {
  import opened Outcomes
  import opened Text

  // ---------------------------------------------------------------------
  // The language code of a LANG / LC_ALL value

  /** extractLangFromLangVar: the part before the first '.', then before
      the first '_' of that ("ja_JP.UTF-8" gives "ja"). */
  function ExtractLang(langVar: string): (code: string)
    ensures HasPrefix(langVar, code)
    ensures '.' !in code && '_' !in code
  {
    var beforeDot := BeforeFirst(langVar, '.');
    var code := BeforeFirst(beforeDot, '_');
    assert langVar[..|code|] == beforeDot[..|code|];
    code
  }

  /** BeforeFirst stops at the first separator. */
  lemma {:induction false} BeforeFirstAt(s: string, sep: char, k: nat)
    requires k < |s| && s[k] == sep && sep !in s[..k]
    ensures BeforeFirst(s, sep) == s[..k]
  {
    if k > 0 {
      assert s[0] in s[..k];
      assert s[1..][..k - 1] == s[1..k];
      assert sep !in s[1..][..k - 1] by {
        forall i | 0 <= i < k - 1 ensures s[1..][i] != sep {
          assert s[1..][i] == s[..k][i + 1];
        }
      }
      BeforeFirstAt(s[1..], sep, k - 1);
      assert s[..k] == [s[0]] + s[1..k];
    }
  }

  /** Without a separator, BeforeFirst keeps the whole string. */
  lemma {:induction false} BeforeFirstNone(s: string, sep: char)
    requires sep !in s
    ensures BeforeFirst(s, sep) == s
  {
    if s != [] {
      assert forall c :: c in s[1..] ==> c in s;
      BeforeFirstNone(s[1..], sep);
      assert s == [s[0]] + s[1..];
    }
  }

  /** A value without '.' or '_' is already a language code. */
  lemma ExtractLangIdentity(s: string)
    requires '.' !in s && '_' !in s
    ensures ExtractLang(s) == s
  {
    BeforeFirstNone(s, '.');
    BeforeFirstNone(s, '_');
  }

  /** Extracting twice is extracting once. */
  lemma ExtractLangIdempotent(s: string)
    ensures ExtractLang(ExtractLang(s)) == ExtractLang(s)
  {
    ExtractLangIdentity(ExtractLang(s));
  }

  /** A code followed by '.' or '_' and anything at all gives the code. */
  lemma ExtractLangOf(code: string, c: char, rest: string)
    requires '.' !in code && '_' !in code
    requires c == '.' || c == '_'
    ensures ExtractLang(code + [c] + rest) == code
  {
    var x := code + [c] + rest;
    assert x[..|code|] == code;
    if c == '.' {
      BeforeFirstAt(x, '.', |code|);
      BeforeFirstNone(code, '_');
    } else {
      var y := BeforeFirst(x, '.');
      assert forall i :: 0 <= i <= |code| ==> x[i] != '.' by {
        forall i | 0 <= i <= |code| ensures x[i] != '.' {
          if i < |code| { assert x[i] == code[i]; }
        }
      }
      assert |y| > |code|;
      assert y[|code|] == x[|code|] == '_';
      assert y[..|code|] == x[..|code|];
      BeforeFirstAt(y, '_', |code|);
    }
  }

  lemma ExtractLangJapanese()
    ensures ExtractLang("ja_JP.UTF-8") == "ja"
  {
    assert "ja_JP.UTF-8" == "ja" + ['_'] + "JP.UTF-8";
    ExtractLangOf("ja", '_', "JP.UTF-8");
  }

  lemma ExtractLangBare()
    ensures ExtractLang("fr") == "fr"
  {
    ExtractLangIdentity("fr");
  }

  // ---------------------------------------------------------------------
  // The localizer

  /** A template value: the Go code passes `any`; counts and strings are
      what this program passes. */
  datatype Value = Int(i: int) | Str(s: string)

  /** A localizer: the languages in preference order and, per language, the
      messages loaded for it. */
  datatype Localizer = Localizer(accept: seq<string>, catalog: map<string, map<string, string>>)

  /** Initialize. `langEnv` and `lcAll` are the values of LANG and LC_ALL,
      "" when unset. The list holds the given language, then LANG's code, then
      LC_ALL's code (each only when non-empty), then "ja" and "en". */
  method Initialize(lang: string, langEnv: string, lcAll: string, catalog: map<string, map<string, string>>)
    returns (loc: Localizer)
    ensures loc.catalog == catalog
    ensures |loc.accept| == 2 + (if lang != "" then 1 else 0) + (if langEnv != "" then 1 else 0)
                               + (if lcAll != "" then 1 else 0)
    ensures loc.accept[|loc.accept| - 2..] == ["ja", "en"]
    ensures lang != "" ==> loc.accept[0] == lang
    ensures langEnv != "" ==> loc.accept[if lang != "" then 1 else 0] == ExtractLang(langEnv)
    ensures lcAll != "" ==> loc.accept[|loc.accept| - 3] == ExtractLang(lcAll)
  {
    var accept: seq<string> := [];
    if lang != "" {
      accept := accept + [lang];
    }
    if langEnv != "" {
      accept := accept + [ExtractLang(langEnv)];
    }
    if lcAll != "" {
      accept := accept + [ExtractLang(lcAll)];
    }
    accept := accept + ["ja", "en"];
    loc := Localizer(accept, catalog);
  }

  /** The message for `messageID` in the first accepted language that has one. */
  function Localize(accept: seq<string>, catalog: map<string, map<string, string>>, messageID: string): (r: Option<string>)
    ensures r.Some? <==> exists i :: 0 <= i < |accept| && Has(catalog, accept[i], messageID)
  {
    if accept == [] then None
    else if Has(catalog, accept[0], messageID) then Some(catalog[accept[0]][messageID])
    else
      var r := Localize(accept[1..], catalog, messageID);
      assert forall i :: 1 <= i < |accept| ==> accept[i] == accept[1..][i - 1];
      r
  }

  predicate Has(catalog: map<string, map<string, string>>, lang: string, messageID: string) {
    lang in catalog && messageID in catalog[lang]
  }

  /** The message Localize finds comes from the first language that has it. */
  lemma {:induction false} LocalizeFirst(accept: seq<string>, catalog: map<string, map<string, string>>, messageID: string)
    requires Localize(accept, catalog, messageID).Some?
    ensures exists i :: (0 <= i < |accept| && Has(catalog, accept[i], messageID)
      && Localize(accept, catalog, messageID).value == catalog[accept[i]][messageID]
      && forall j :: 0 <= j < i ==> !Has(catalog, accept[j], messageID))
  {
    if !Has(catalog, accept[0], messageID) {
      LocalizeFirst(accept[1..], catalog, messageID);
      var i :| 0 <= i < |accept[1..]| && Has(catalog, accept[1..][i], messageID)
        && Localize(accept[1..], catalog, messageID).value == catalog[accept[1..][i]][messageID]
        && forall j :: 0 <= j < i ==> !Has(catalog, accept[1..][j], messageID);
      assert forall j :: 0 <= j < i + 1 ==> !Has(catalog, accept[j], messageID) by {
        forall j | 0 <= j < i + 1 ensures !Has(catalog, accept[j], messageID) {
          if j > 0 { assert accept[j] == accept[1..][j - 1]; }
        }
      }
      assert 0 <= i + 1 < |accept| && Has(catalog, accept[i + 1], messageID)
        && Localize(accept, catalog, messageID).value == catalog[accept[i + 1]][messageID];
    } else {
      assert 0 <= 0 < |accept| && Has(catalog, accept[0], messageID)
        && Localize(accept, catalog, messageID).value == catalog[accept[0]][messageID];
    }
  }

  /** T: the localized message, or the message ID itself when the localizer
      is not initialised or no accepted language has the message. */
  function T(loc: Option<Localizer>, messageID: string): (r: string)
    ensures loc.None? ==> r == messageID
    ensures loc.Some? && (forall i :: 0 <= i < |loc.value.accept| ==> !Has(loc.value.catalog, loc.value.accept[i], messageID))
      ==> r == messageID
    ensures loc.Some? && Localize(loc.value.accept, loc.value.catalog, messageID).Some?
      ==> exists l :: l in loc.value.accept && Has(loc.value.catalog, l, messageID) && r == loc.value.catalog[l][messageID]
  {
    if loc.None? then messageID
    else match Localize(loc.value.accept, loc.value.catalog, messageID)
      case None => messageID
      case Some(msg) =>
        LocalizeFirst(loc.value.accept, loc.value.catalog, messageID);
        msg
  }

  /** The template data TWithCount passes: "Count" set to the count, then
      every extra entry copied over it, so an extra "Count" wins. */
  method MergeTemplateData(count: int, extra: map<string, Value>) returns (data: map<string, Value>)
    ensures data.Keys == extra.Keys + {"Count"}
    ensures forall k :: k in extra ==> data[k] == extra[k]
    ensures "Count" !in extra ==> data["Count"] == Int(count)
  {
    data := map["Count" := Int(count)];
    var todo := extra.Keys;
    while todo != {}
      invariant todo <= extra.Keys
      invariant data.Keys == (extra.Keys - todo) + {"Count"}
      invariant forall k :: k in extra.Keys - todo ==> data[k] == extra[k]
      invariant "Count" !in extra.Keys - todo ==> data["Count"] == Int(count)
      decreases |todo|
    {
      var k :| k in todo;
      data := data[k := extra[k]];
      todo := todo - {k};
    }
  }

  /** TWithCount: like T, with the count merged into the template data, which
      is returned beside the message; message templates are not expanded. */
  method TWithCount(loc: Option<Localizer>, messageID: string, count: int, extra: map<string, Value>)
    returns (msg: string, data: map<string, Value>)
    ensures msg == T(loc, messageID)
    ensures loc.None? ==> msg == messageID
    ensures data.Keys == extra.Keys + {"Count"}
    ensures forall k :: k in extra ==> data[k] == extra[k]
    ensures "Count" !in extra ==> data["Count"] == Int(count)
  {
    data := MergeTemplateData(count, extra);
    if loc.None? {
      return messageID, data;
    }
    var found := Localize(loc.value.accept, loc.value.catalog, messageID);
    if found.None? {
      return messageID, data;
    }
    msg := found.value;
  }
}
