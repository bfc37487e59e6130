/**
 * The interface strings of translation_manager.py: which languages read
 * right to left, loading a language's INI file through Python's
 * ConfigParser with its escaped newlines turned into newlines, looking a
 * key up, and switching language.
 *
 * The parts of ConfigParser the module relies on are modelled: option names
 * are lower-cased when the file is read and again when a key is looked up;
 * the options of a [DEFAULT] section show through every other section; and
 * values pass through the `%` interpolation of BasicInterpolation on every
 * read and are checked by it on every write.
 */
module Translation {
  import opened Wrappers
  import opened Text

  /** check_rtl_language: only Arabic reads right to left. */
  function IsRtl(language: string): (rtl: bool)
    ensures rtl <==> language == "ar"
  {
    language in ["ar"]
  }

  /** The sections of an INI file, each a map from option name to value. */
  type Ini = map<string, map<string, string>>

  /**
   * Why load_translation raises: no file for the language, two option names
   * of one section that differ only in case (DuplicateOptionError), no
   * [Settings] section (KeyError), or a value the `%` interpolation refuses
   * when it is read or written back (InterpolationSyntaxError, ValueError).
   */
  datatype LoadError = FileNotFound(path: string) | DuplicateOption | NoSettingsSection | InterpolationError

  /** `translations/<language>.ini`. */
  function TranslationPath(language: string): string
  {
    "translations/" + language + ".ini"
  }

  // ---------------------------------------------------------------
  // Option names
  // ---------------------------------------------------------------

  /** No two option names of the section fold to the same lower-case name. */
  predicate CaseDistinct(section: map<string, string>)
  {
    forall a, b :: a in section && b in section && Lower(a) == Lower(b) ==> a == b
  }

  predicate AllCaseDistinct(ini: Ini)
  {
    forall s :: s in ini ==> CaseDistinct(ini[s])
  }

  /** optionxform applied to every option name of a section as it is read. */
  function FoldSection(section: map<string, string>): (r: map<string, string>)
    requires CaseDistinct(section)
    ensures forall k :: k in section ==> Lower(k) in r && r[Lower(k)] == section[k]
    ensures r.Keys == set k | k in section :: Lower(k)
  {
    map k | k in section :: Lower(k) := section[k]
  }

  /** A section of one option whose name is already lower-case reads as it is written. */
  lemma FoldOneOption(name: string, value: string)
    requires Lower(name) == name
    ensures CaseDistinct(map[name := value]) && FoldSection(map[name := value]) == map[name := value]
  {
    var r := FoldSection(map[name := value]);
    assert name in r;
    assert r.Keys == {name};
  }

  /** A file with [Settings] alone shows [Settings] as it is. */
  lemma SettingsAlone(section: map<string, string>)
    ensures SettingsView(map["Settings" := section]) == section
  {
    assert "DEFAULT" != "Settings" by {
      assert |"DEFAULT"| != |"Settings"|;
    }
    assert Defaults(map["Settings" := section]) == map[];
  }

  /** A file of one section reads as that section read. */
  lemma FoldOneSection(name: string, section: map<string, string>)
    requires CaseDistinct(section)
    ensures AllCaseDistinct(map[name := section]) && FoldNames(map[name := section]) == map[name := FoldSection(section)]
  {
  }

  /** read_file: the section names as written, the option names lower-cased. */
  function FoldNames(ini: Ini): (r: Ini)
    requires AllCaseDistinct(ini)
    ensures r.Keys == ini.Keys
    ensures forall s :: s in ini ==> r[s] == FoldSection(ini[s])
  {
    map s | s in ini :: FoldSection(ini[s])
  }

  /** The options of [DEFAULT], which every other section inherits. */
  function Defaults(ini: Ini): map<string, string>
  {
    if "DEFAULT" in ini then ini["DEFAULT"] else map[]
  }

  /** The options seen through `translation['Settings']`: its own, and the defaults it does not override. */
  function SettingsView(ini: Ini): (view: map<string, string>)
    requires "Settings" in ini
    ensures view.Keys == ini["Settings"].Keys + Defaults(ini).Keys
    ensures forall o :: o in view ==> view[o] == if o in ini["Settings"] then ini["Settings"][o] else Defaults(ini)[o]
  {
    Defaults(ini) + ini["Settings"]
  }

  // ---------------------------------------------------------------
  // Interpolation
  // ---------------------------------------------------------------

  function Prepend(c: char, rest: Option<string>): Option<string>
  {
    match rest
    case None => None
    case Some(t) => Some([c] + t)
  }

  /**
   * BasicInterpolation when a value is read: `%%` reads as one `%`, and a
   * `%` followed by anything but `%` or `(`, or ending the value, raises.
   * A `%(` reference is kept as it is written.
   */
  function Interpolate(v: string): (r: Option<string>)
    ensures '%' !in v ==> r == Some(v)
    decreases |v|
  {
    if |v| == 0 then Some("")
    else if v[0] != '%' then
      assert '%' !in v ==> '%' !in v[1..] && v == [v[0]] + v[1..];
      Prepend(v[0], Interpolate(v[1..]))
    else if |v| >= 2 && v[1] == '%' then Prepend('%', Interpolate(v[2..]))
    else if |v| >= 2 && v[1] == '(' then Prepend('%', Interpolate(v[1..]))
    else None
  }

  /** Every `%` doubled: how a literal percent sign is written in the file. */
  function DoublePercents(t: string): string
    decreases |t|
  {
    if |t| == 0 then "" else (if t[0] == '%' then "%%" else [t[0]]) + DoublePercents(t[1..])
  }

  /** A literal text written with its percent signs doubled reads back as the text. */
  lemma {:induction false} DoubledPercentsReadBack(t: string)
    ensures Interpolate(DoublePercents(t)) == Some(t)
    decreases |t|
  {
    if |t| > 0 {
      DoubledPercentsReadBack(t[1..]);
      var v := DoublePercents(t);
      if t[0] == '%' {
        assert v == "%%" + DoublePercents(t[1..]);
        assert v[2..] == DoublePercents(t[1..]);
      } else {
        assert v == [t[0]] + DoublePercents(t[1..]);
        assert v[1..] == DoublePercents(t[1..]);
      }
      assert t == [t[0]] + t[1..];
    }
  }

  /** A single percent sign at the end of a value the read refuses, whatever stands before it. */
  lemma {:induction false} PercentAtEnd(before: string)
    requires '%' !in before
    ensures Interpolate(before + "%") == None
    decreases |before|
  {
    if |before| > 0 {
      assert (before + "%")[1..] == before[1..] + "%";
      PercentAtEnd(before[1..]);
    }
  }

  /**
   * One turn of the loop of load_translation: the value is read (and
   * interpolated), its backslash-n pairs replaced, and written back, which
   * BasicInterpolation accepts only when the written value reads without
   * error again.
   */
  function Rewrite(v: string): (r: Option<string>)
    ensures r.Some? ==> Interpolate(r.value).Some? && !HasEscapedNewline(r.value)
  {
    match Interpolate(v)
    case None => None
    case Some(read) =>
      var u := Unescape(read);
      UnescapeLeavesNoEscape(read);
      if Interpolate(u).Some? then Some(u) else None
  }

  /** A character other than a newline that a text lacks is lacking after the replacement too. */
  lemma {:induction false} UnescapeAddsOnlyNewlines(s: string, c: char)
    requires c != '\n' && c !in s
    ensures c !in Unescape(s)
    decreases |s|
  {
    if |s| >= 2 && s[0] == '\\' && s[1] == 'n' {
      assert s[2..] == s[..][2..];
      UnescapeAddsOnlyNewlines(s[2..], c);
    } else if |s| > 0 {
      UnescapeAddsOnlyNewlines(s[1..], c);
    }
  }

  /** Without percent signs a value is only unescaped. */
  lemma RewriteWithoutPercent(v: string)
    requires '%' !in v
    ensures Rewrite(v) == Some(Unescape(v))
  {
    UnescapeAddsOnlyNewlines(v, '%');
  }

  /**
   * A percent sign the file means literally fails: written alone it fails
   * the read, and written doubled it reads as a single one, which the write
   * back refuses.
   */
  lemma PercentValuesFail()
    ensures Rewrite("50%") == None
    ensures Interpolate("50%%") == Some("50%") && Rewrite("50%%") == None
  {
    PercentAtEnd("50");
    assert Interpolate("50%%") == Some("50%") by {
      assert "%%"[0] == '%' && "%%"[1] == '%' && "%%"[2..] == "";
      assert Interpolate("") == Some("");
      assert Interpolate("%%") == Prepend('%', Interpolate(""));
      assert ['%'] + "" == "%";
      assert Interpolate("%%") == Some("%");
      assert "0%%"[0] == '0' && "0%%"[1..] == "%%" && ['0'] + "%" == "0%";
      assert Interpolate("0%%") == Some("0%");
      assert "50%%"[0] == '5' && "50%%"[1..] == "0%%" && ['5'] + "0%" == "50%";
    }
    assert Unescape("50%") == "50%" by {
      UnescapeAddsOnlyNewlines("50%", '\\');
      assert "50%"[1..] == "0%" && "0%"[1..] == "%" && "%"[1..] == "";
    }
    PercentAtEnd("50");
  }

  /** A text without percent signs or backslashes, written with backslash-n for its newlines, loads back as it was. */
  lemma EscapedValueLoadsBack(t: string)
    requires '\\' !in t && '%' !in t
    ensures Rewrite(Escape(t)) == Some(t)
  {
    EscapeAddsNoPercent(t);
    RewriteWithoutPercent(Escape(t));
    UnescapeEscape(t);
  }

  lemma {:induction false} EscapeAddsNoPercent(t: string)
    requires '%' !in t
    ensures '%' !in Escape(t)
    decreases |t|
  {
    if |t| > 0 {
      EscapeAddsNoPercent(t[1..]);
    }
  }

  // ---------------------------------------------------------------
  // Loading and looking up
  // ---------------------------------------------------------------

  /** Every value of the view can be read, unescaped and written back. */
  predicate Rewritable(view: map<string, string>)
  {
    forall o :: o in view ==> Rewrite(view[o]).Some?
  }

  lemma RewritableOne(name: string, value: string)
    requires Rewrite(value).Some?
    ensures Rewritable(map[name := value])
  {
  }

  /** The view with every value rewritten: what the loop leaves in [Settings]. */
  function RewriteValues(view: map<string, string>): (r: map<string, string>)
    requires Rewritable(view)
    ensures r.Keys == view.Keys
    ensures forall o :: o in r ==> Interpolate(r[o]).Some? && Some(r[o]) == Rewrite(view[o])
  {
    map o | o in view :: Rewrite(view[o]).value
  }

  /**
   * load_translation over the files present (by path): the parser is
   * replaced first, so a missing file leaves it empty, and a missing
   * section or a refused value leaves it holding the file as read. A clash
   * of option names is given an empty parser too, although read_file keeps
   * the options it read before the clashing line: the sections here carry
   * no order, so what came before the clash cannot be told.
   */
  function Load(files: map<string, Ini>, language: string): (r: (Ini, Option<LoadError>))
    ensures TranslationPath(language) !in files <==> r.1 == Some(FileNotFound(TranslationPath(language)))
    ensures r.1 == None <==>
      && TranslationPath(language) in files
      && AllCaseDistinct(files[TranslationPath(language)])
      && "Settings" in files[TranslationPath(language)]
      && Rewritable(SettingsView(FoldNames(files[TranslationPath(language)])))
    ensures r.1 == Some(DuplicateOption) <==> TranslationPath(language) in files && !AllCaseDistinct(files[TranslationPath(language)])
    ensures r.1 == None ==>
      var ini := FoldNames(files[TranslationPath(language)]);
      r.0 == ini["Settings" := RewriteValues(SettingsView(ini))]
    ensures r.1.Some? && r.1 != Some(NoSettingsSection) && r.1 != Some(InterpolationError) ==> r.0 == map[]
  {
    var path := TranslationPath(language);
    if path !in files then (map[], Some(FileNotFound(path)))
    else if !AllCaseDistinct(files[path]) then (map[], Some(DuplicateOption))
    else
      var ini := FoldNames(files[path]);
      if "Settings" !in ini then (ini, Some(NoSettingsSection))
      else if Rewritable(SettingsView(ini)) then (ini["Settings" := RewriteValues(SettingsView(ini))], None)
      else (ini, Some(InterpolationError))
  }

  /**
   * t: `get('Settings', key, fallback=key)`. A missing section or option
   * gives the key itself; otherwise the value as interpolation reads it,
   * None standing for the error that read raises.
   */
  function Lookup(ini: Ini, key: string): (text: Option<string>)
    ensures "Settings" !in ini ==> text == Some(key)
    ensures "Settings" in ini && Lower(key) !in SettingsView(ini) ==> text == Some(key)
  {
    if "Settings" !in ini then Some(key)
    else if Lower(key) in SettingsView(ini) then Interpolate(SettingsView(ini)[Lower(key)])
    else Some(key)
  }

  /** The case of a key does not matter when it is found: `t("Language")` reads the option `language`. */
  lemma LookupIgnoresCase(ini: Ini, key: string)
    requires "Settings" in ini && Lower(key) in SettingsView(ini)
    ensures Lookup(ini, key) == Lookup(ini, Lower(key))
    ensures Lookup(ini, key) == Interpolate(SettingsView(ini)[Lower(key)])
  {
    LowerIdempotent(key);
  }

  /** After a failed lookup of the file every key shows as itself. */
  lemma MissingFileShowsKeys(files: map<string, Ini>, language: string, key: string)
    requires TranslationPath(language) !in files
    ensures Lookup(Load(files, language).0, key) == Some(key)
  {
  }

  /** Once the loop has written the view back into [Settings], [Settings] shows exactly the rewritten view. */
  lemma RewrittenView(ini: Ini)
    requires "Settings" in ini && Rewritable(SettingsView(ini))
    ensures SettingsView(ini["Settings" := RewriteValues(SettingsView(ini))]) == RewriteValues(SettingsView(ini))
  {
    var rewritten := RewriteValues(SettingsView(ini));
    var loaded := ini["Settings" := rewritten];
    assert Defaults(loaded) == Defaults(ini);
    assert Defaults(loaded).Keys <= rewritten.Keys;
  }

  /** After a successful load [Settings] shows every option of the view as rewritten, and nothing else. */
  lemma LoadedView(files: map<string, Ini>, language: string)
    requires Load(files, language).1 == None
    ensures var ini := FoldNames(files[TranslationPath(language)]);
      var loaded := Load(files, language).0;
      "Settings" in loaded && SettingsView(loaded) == RewriteValues(SettingsView(ini))
  {
    RewrittenView(FoldNames(files[TranslationPath(language)]));
  }

  /** An option written under [Settings] in any case, or only under [DEFAULT], is in the view under its lower-case name. */
  lemma FoldedValue(file: Ini, name: string)
    requires AllCaseDistinct(file) && "Settings" in file
    requires name in file["Settings"] || (name in Defaults(file) && Lower(name) !in FoldNames(file)["Settings"])
    ensures var value := if name in file["Settings"] then file["Settings"][name] else Defaults(file)[name];
      Lower(name) in SettingsView(FoldNames(file)) && SettingsView(FoldNames(file))[Lower(name)] == value
  {
    var ini := FoldNames(file);
    if name !in file["Settings"] {
      assert "DEFAULT" in file && Defaults(ini) == FoldSection(file["DEFAULT"]);
    }
  }

  /** Looking a key up once the view has been rewritten: nothing raises, and a found key reads its rewritten value. */
  lemma RewrittenLookup(ini: Ini, key: string)
    requires "Settings" in ini && Rewritable(SettingsView(ini))
    ensures var loaded := ini["Settings" := RewriteValues(SettingsView(ini))];
      && Lookup(loaded, key).Some?
      && (Lower(key) in SettingsView(ini) ==> Lookup(loaded, key) == Interpolate(Rewrite(SettingsView(ini)[Lower(key)]).value))
  {
    RewrittenView(ini);
  }

  /** After a successful load no lookup raises. */
  lemma LoadedLookupSucceeds(files: map<string, Ini>, language: string, key: string)
    requires Load(files, language).1 == None
    ensures Lookup(Load(files, language).0, key).Some?
  {
    RewrittenLookup(FoldNames(files[TranslationPath(language)]), key);
  }

  /**
   * After a successful load an option written under [Settings] in any case,
   * or only under [DEFAULT], shows for a key of any case its rewritten value
   * read once more; one without a percent sign shows its unescaped value.
   */
  lemma LoadedLookup(files: map<string, Ini>, language: string, name: string, key: string)
    requires Load(files, language).1 == None
    requires var file := files[TranslationPath(language)];
      name in file["Settings"] || (name in Defaults(file) && Lower(name) !in FoldNames(file)["Settings"])
    requires Lower(key) == Lower(name)
    ensures var file := files[TranslationPath(language)];
      var value := if name in file["Settings"] then file["Settings"][name] else Defaults(file)[name];
      && Rewrite(value).Some?
      && Lookup(Load(files, language).0, key) == Interpolate(Rewrite(value).value)
      && ('%' !in value ==> Lookup(Load(files, language).0, key) == Some(Unescape(value)))
  {
    var file := files[TranslationPath(language)];
    FoldedValue(file, name);
    RewrittenLookup(FoldNames(file), key);
    var value := if name in file["Settings"] then file["Settings"][name] else Defaults(file)[name];
    if '%' !in value {
      RewriteWithoutPercent(value);
      UnescapeAddsOnlyNewlines(value, '%');
    }
  }

  lemma LowerLanguage()
    ensures Lower("Language") == "language" && Lower("language") == "language"
  {
    assert Lower("Language")[0] == 'l';
    assert Lower("language")[0] == 'l';
  }

  /**
   * A file holding `language = <value>` alone under [Settings] answers
   * `t("Language")` with the value (`Idioma` for `language = Idioma`).
   */
  lemma MixedCaseKeyFound(files: map<string, Ini>, language: string, value: string)
    requires TranslationPath(language) in files
    requires files[TranslationPath(language)] == map["Settings" := map["language" := value]]
    requires '%' !in value
    ensures Load(files, language).1 == None
    ensures Lookup(Load(files, language).0, "Language") == Some(Unescape(value))
  {
    var section := map["language" := value];
    FoldOneOption("language", value);
    FoldOneSection("Settings", section);
    SettingsAlone(section);
    RewriteWithoutPercent(value);
    RewritableOne("language", value);
    assert Load(files, language).1 == None;
    LowerLanguage();
    LoadedLookup(files, language, "language", "Language");
  }

  // ---------------------------------------------------------------
  // The manager
  // ---------------------------------------------------------------

  class TranslationManager {
    var language: string
    var isRtl: bool
    var translation: Ini

    /** The fields as __init__ leaves them once its load has run. */
    constructor (language: string, isRtl: bool, translation: Ini)
      ensures this.language == language && this.isRtl == isRtl && this.translation == translation
    {
      this.language := language;
      this.isRtl := isRtl;
      this.translation := translation;
    }

    /** t. */
    function T(key: string): Option<string>
      reads this
    {
      Lookup(translation, key)
    }

    /**
     * The loop over the options seen through [Settings]: each is read,
     * unescaped and written back into [Settings]; when one of them is
     * refused the parser is left as it was read.
     */
    method RewriteSettings() returns (ok: bool)
      modifies this
      requires "Settings" in translation
      ensures ok <==> Rewritable(SettingsView(old(translation)))
      ensures ok ==> translation == old(translation)["Settings" := RewriteValues(SettingsView(old(translation)))]
      ensures !ok ==> translation == old(translation)
      ensures language == old(language) && isRtl == old(isRtl)
    {
      var view := SettingsView(translation);
      var keys := view.Keys;
      var done: map<string, string> := map[];
      while keys != {}
        invariant keys <= view.Keys && done.Keys == view.Keys - keys
        invariant forall o :: o in done ==> Rewrite(view[o]) == Some(done[o])
        decreases keys
      {
        var key :| key in keys;
        var value := Rewrite(view[key]);
        if value.None? {
          return false;
        }
        done := done[key := value.value];
        keys := keys - {key};
      }
      assert done == RewriteValues(view);
      translation := translation["Settings" := done];
      return true;
    }

    /** load_translation: returns the error it raises, if any. */
    method LoadTranslation(files: map<string, Ini>) returns (error: Option<LoadError>)
      modifies this
      ensures (translation, error) == Load(files, old(language))
      ensures language == old(language) && isRtl == old(isRtl)
    {
      var path := TranslationPath(language);
      translation := map[];
      if path !in files {
        return Some(FileNotFound(path));
      }
      if !AllCaseDistinct(files[path]) {
        return Some(DuplicateOption);
      }
      translation := FoldNames(files[path]);
      if "Settings" !in translation {
        return Some(NoSettingsSection);
      }
      var ok := RewriteSettings();
      error := if ok then None else Some(InterpolationError);
    }

    /** change_language: the language and its strings change, the reading direction does not. */
    method ChangeLanguage(newLanguage: string, files: map<string, Ini>) returns (error: Option<LoadError>)
      modifies this
      ensures language == newLanguage && isRtl == old(isRtl)
      ensures (translation, error) == Load(files, newLanguage)
    {
      language := newLanguage;
      error := LoadTranslation(files);
    }
  }

  /** __init__: the manager exists when its first load does not raise; `isRtl` is fixed here. */
  method NewTranslationManager(language: string, files: map<string, Ini>)
    returns (m: Option<TranslationManager>, error: Option<LoadError>)
    ensures error == Load(files, language).1 && (m.Some? <==> error.None?)
    ensures m.Some? ==>
      && fresh(m.value) && m.value.language == language
      && m.value.isRtl == IsRtl(language) && m.value.translation == Load(files, language).0
  {
    var manager := new TranslationManager(language, IsRtl(language), map[]);
    error := manager.LoadTranslation(files);
    m := if error.None? then Some(manager) else None;
  }
}
