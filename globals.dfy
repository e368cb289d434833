/**
 * Where Beeftext keeps its files (Beeftext/BeeftextGlobals.cpp), and the lazily
 * created clipboard manager.
 *
 * A path is a sequence of segments. Joining a relative name onto a directory
 * appends the segments of the name, split at '/'; nothing is cleaned, so ".."
 * stays a segment of its own. The values Qt and the preferences provide are the
 * fields of an Environment.
 */
module Globals {

  type Path = seq<string>

  /** The names the data files and folders are given. */
  const TRANSLATIONS_FOLDER_NAME: string := "Translations"
  const LOG_FILE_NAME: string := "log.txt"
  const BACKUP_FOLDER_NAME: string := "Backup"
  const SENSITIVE_APPS_FILE_NAME: string := "sensitiveApps.json"
  const EMOJI_EXCLUDED_APPS_FILE_NAME: string := "emojiExcludedApps.json"
  const PORTABLE_APPS_DATA_FOLDER: string := "../../Data/settings"
  const PORTABLE_DATA_FOLDER: string := "Data"
  const PORTABLE_SETTINGS_FILE_NAME: string := "Settings.ini"

  /** The segments of a relative name: the pieces between its separators, empty ones included. */
  function Segments(name: string): (r: seq<string>)
    ensures |r| >= 1
    ensures forall k :: 0 <= k < |r| ==> '/' !in r[k]
  {
    if name == [] then [""]
    else
      var rest := Segments(name[1..]);
      if name[0] == '/' then [""] + rest
      else [[name[0]] + rest[0]] + rest[1..]
  }

  /** The name spelled by some segments, separated by '/'. */
  function Join(p: seq<string>): string
    requires |p| >= 1
    decreases |p|
  {
    if |p| == 1 then p[0] else p[0] + "/" + Join(p[1..])
  }

  /** Splitting loses nothing: joining the segments of a name gives the name back. */
  lemma {:induction false} JoinSegments(name: string)
    ensures Join(Segments(name)) == name
    decreases |name|
  {
    if name != [] {
      var rest := Segments(name[1..]);
      JoinSegments(name[1..]);
      if name[0] == '/' {
        assert Segments(name) == [""] + rest;
        assert ([""] + rest)[1..] == rest;
      } else if |rest| == 1 {
        assert Segments(name) == [[name[0]] + rest[0]];
        assert name == [name[0]] + name[1..];
      } else {
        var p := [[name[0]] + rest[0]] + rest[1..];
        assert p[1..] == rest[1..];
        assert Join(rest) == rest[0] + "/" + Join(rest[1..]);
        assert name == [name[0]] + name[1..];
      }
    }
  }

  /** A name without separators is a single segment. */
  lemma {:induction false} SegmentsOfPlainName(name: string)
    requires '/' !in name
    ensures Segments(name) == [name]
    decreases |name|
  {
    if name != [] {
      SegmentsOfPlainName(name[1..]);
      assert name == [name[0]] + name[1..];
    }
  }

  /** A separator after a plain first segment splits it off. */
  lemma {:induction false} SegmentsAfterSeparator(a: string, b: string)
    requires '/' !in a
    ensures Segments(a + "/" + b) == [a] + Segments(b)
    decreases |a|
  {
    if a == [] {
      assert (a + "/" + b)[1..] == b;
    } else {
      assert (a + "/" + b)[1..] == a[1..] + "/" + b;
      SegmentsAfterSeparator(a[1..], b);
      assert a == [a[0]] + a[1..];
    }
  }

  /** Segments separated by '/' are split back into themselves. */
  lemma {:induction false} SegmentsJoin(p: seq<string>)
    requires |p| >= 1
    requires forall k :: 0 <= k < |p| ==> '/' !in p[k]
    ensures Segments(Join(p)) == p
    decreases |p|
  {
    if |p| == 1 {
      SegmentsOfPlainName(p[0]);
    } else {
      SegmentsJoin(p[1..]);
      SegmentsAfterSeparator(p[0], Join(p[1..]));
    }
  }

  /**
   * QDir(dir).absoluteFilePath(name) for a relative name: the directory followed by
   * the segments of the name, from which the name can be read back.
   */
  function AbsoluteFilePath(dir: Path, name: string): (p: Path)
    ensures |p| > |dir| && p[..|dir|] == dir && Join(p[|dir|..]) == name
    ensures '/' !in name ==> p == dir + [name]
  {
    JoinSegments(name);
    var p := dir + Segments(name);
    assert p[|dir|..] == Segments(name);
    if '/' !in name then SegmentsOfPlainName(name); p else p
  }

  /** A name made of four plain pieces has exactly those four segments. */
  lemma SegmentsOfFour(a: string, b: string, c: string, d: string)
    requires '/' !in a && '/' !in b && '/' !in c && '/' !in d
    ensures Segments(a + "/" + b + "/" + c + "/" + d) == [a, b, c, d]
  {
    var cd := c + "/" + d;
    var bcd := b + "/" + cd;
    SegmentsOfPlainName(d);
    SegmentsAfterSeparator(c, d);
    SegmentsAfterSeparator(b, cd);
    SegmentsAfterSeparator(a, bcd);
    calc {
      a + "/" + b + "/" + c + "/" + d;
      a + "/" + (b + "/" + (c + "/" + d));
      a + "/" + bcd;
    }
  }

  /** The PortableApps data folder is spelled as four pieces separated by '/'. */
  lemma PortableAppsDataFolderSpelling()
    ensures PORTABLE_APPS_DATA_FOLDER == ".." + "/" + ".." + "/" + "Data" + "/" + "settings"
  {
  }

  /** The two-levels-up PortableApps data folder, segment by segment. */
  lemma PortableAppsDataFolderSegments()
    ensures Segments(PORTABLE_APPS_DATA_FOLDER) == ["..", "..", "Data", "settings"]
  {
    PortableAppsDataFolderSpelling();
    SegmentsOfFour("..", "..", "Data", "settings");
  }

  /** What the application reads from Qt and from its preferences. */
  datatype Environment = Environment(
    applicationDirPath: Path,        // the folder of the executable
    appLocalDataLocation: Path,      // the standard writable per-user data location
    isInPortableMode: bool,
    usePortableAppsFolderLayout: bool,
    useCustomBackupLocation: bool,
    customBackupLocation: string)

  /**
   * The portable data folder: under the PortableApps layout, Data/settings two levels
   * above the executable's folder; otherwise Data next to the executable.
   */
  function PortableModeDataFolderPath(env: Environment): (p: Path)
    ensures env.usePortableAppsFolderLayout ==>
      p == env.applicationDirPath + ["..", "..", "Data", "settings"]
    ensures !env.usePortableAppsFolderLayout ==> p == env.applicationDirPath + ["Data"]
  {
    PortableAppsDataFolderSegments();
    assert '/' !in PORTABLE_DATA_FOLDER;
    var appDir := env.applicationDirPath;
    if env.usePortableAppsFolderLayout then AbsoluteFilePath(appDir, PORTABLE_APPS_DATA_FOLDER)
    else AbsoluteFilePath(appDir, PORTABLE_DATA_FOLDER)
  }

  /** The settings file of portable mode, inside the portable data folder. */
  function PortableModeSettingsFilePath(env: Environment): (p: Path)
    ensures p == PortableModeDataFolderPath(env) + ["Settings.ini"]
  {
    assert '/' !in PORTABLE_SETTINGS_FILE_NAME;
    AbsoluteFilePath(PortableModeDataFolderPath(env), PORTABLE_SETTINGS_FILE_NAME)
  }

  /** The data directory: the portable data folder in portable mode, the standard location otherwise. */
  function AppDataDir(env: Environment): (p: Path)
    ensures env.isInPortableMode ==> p == PortableModeDataFolderPath(env)
    ensures !env.isInPortableMode ==> p == env.appLocalDataLocation
  {
    if env.isInPortableMode then PortableModeDataFolderPath(env) else env.appLocalDataLocation
  }

  /** The translations shipped with the application, next to the executable. */
  function TranslationRootFolderPath(env: Environment): (p: Path)
    ensures p == env.applicationDirPath + ["Translations"]
  {
    assert '/' !in TRANSLATIONS_FOLDER_NAME;
    AbsoluteFilePath(env.applicationDirPath, TRANSLATIONS_FOLDER_NAME)
  }

  /** The translations the user adds, in the data directory. */
  function UserTranslationRootFolderPath(env: Environment): (p: Path)
    ensures p == AppDataDir(env) + ["Translations"]
  {
    assert '/' !in TRANSLATIONS_FOLDER_NAME;
    AbsoluteFilePath(AppDataDir(env), TRANSLATIONS_FOLDER_NAME)
  }

  function LogFilePath(env: Environment): (p: Path)
    ensures p == AppDataDir(env) + ["log.txt"]
  {
    assert '/' !in LOG_FILE_NAME;
    AbsoluteFilePath(AppDataDir(env), LOG_FILE_NAME)
  }

  function DefaultBackupFolderPath(env: Environment): (p: Path)
    ensures p == AppDataDir(env) + ["Backup"]
  {
    assert '/' !in BACKUP_FOLDER_NAME;
    AbsoluteFilePath(AppDataDir(env), BACKUP_FOLDER_NAME)
  }

  /**
   * The backup folder: the default one unless a custom location is enabled and set;
   * an enabled but empty custom location falls back to the default.
   */
  function BackupFolderPath(env: Environment): (p: Path)
    ensures !env.useCustomBackupLocation ==> p == DefaultBackupFolderPath(env)
    ensures env.useCustomBackupLocation && env.customBackupLocation == "" ==>
      p == DefaultBackupFolderPath(env)
    ensures env.useCustomBackupLocation && env.customBackupLocation != "" ==>
      |p| >= 1 && Join(p) == env.customBackupLocation
  {
    var defaultPath := DefaultBackupFolderPath(env);
    if !env.useCustomBackupLocation then defaultPath
    else
      var customPath := env.customBackupLocation;
      if customPath == "" then defaultPath
      else
        JoinSegments(customPath);
        Segments(customPath)
  }

  function SensitiveApplicationsFilePath(env: Environment): (p: Path)
    ensures p == AppDataDir(env) + ["sensitiveApps.json"]
  {
    assert '/' !in SENSITIVE_APPS_FILE_NAME;
    AbsoluteFilePath(AppDataDir(env), SENSITIVE_APPS_FILE_NAME)
  }

  function EmojiExcludedAppsFilePath(env: Environment): (p: Path)
    ensures p == AppDataDir(env) + ["emojiExcludedApps.json"]
  {
    assert '/' !in EMOJI_EXCLUDED_APPS_FILE_NAME;
    AbsoluteFilePath(AppDataDir(env), EMOJI_EXCLUDED_APPS_FILE_NAME)
  }

  /**
   * The five fixed entries of the data directory (log file, default backup folder,
   * user translations, sensitive-applications and emoji-exclusion files) are five
   * different paths.
   */
  lemma DataDirEntriesDistinct(env: Environment)
    ensures var log, backup, translations, sensitive, emoji :=
              LogFilePath(env), DefaultBackupFolderPath(env), UserTranslationRootFolderPath(env),
              SensitiveApplicationsFilePath(env), EmojiExcludedAppsFilePath(env);
            log != backup && log != translations && log != sensitive && log != emoji &&
            backup != translations && backup != sensitive && backup != emoji &&
            translations != sensitive && translations != emoji &&
            sensitive != emoji
  {
    // the entries differ in the length of their last segment
    var n := |AppDataDir(env)|;
    assert |LogFilePath(env)[n]| == 7;
    assert |DefaultBackupFolderPath(env)[n]| == 6;
    assert |UserTranslationRootFolderPath(env)[n]| == 12;
    assert |SensitiveApplicationsFilePath(env)[n]| == 18;
    assert |EmojiExcludedAppsFilePath(env)[n]| == 22;
  }

  /** The shipped and the user's translations share a folder exactly when the data directory is the executable's folder. */
  lemma TranslationFoldersCoincideIff(env: Environment)
    ensures TranslationRootFolderPath(env) == UserTranslationRootFolderPath(env) <==>
      AppDataDir(env) == env.applicationDirPath
  {
    var a, d := env.applicationDirPath, AppDataDir(env);
    if a + ["Translations"] == d + ["Translations"] {
      assert (a + ["Translations"])[..|a|] == a;
      assert (d + ["Translations"])[..|d|] == d;
    }
  }

  /**
   * In portable mode the shipped and the user's translations are never the same
   * segment sequence (with ".." kept as a segment).
   */
  lemma PortableTranslationFoldersDiffer(env: Environment)
    requires env.isInPortableMode
    ensures TranslationRootFolderPath(env) != UserTranslationRootFolderPath(env)
  {
    TranslationFoldersCoincideIff(env);
    assert |AppDataDir(env)| > |env.applicationDirPath|;
  }

  /** Stands for the default clipboard manager the application creates. */
  class ClipboardManagerDefault {
    constructor () { }
  }

  /** The file-static pointer that holds the clipboard manager once it exists. */
  class ClipboardHolder {
    var clipboardManagerPtr: ClipboardManagerDefault?

    constructor ()
      ensures clipboardManagerPtr == null
    {
      clipboardManagerPtr := null;
    }

    /** Returns the clipboard manager, creating it on the first call only. */
    method ClipboardManager() returns (m: ClipboardManagerDefault)
      modifies this
      ensures clipboardManagerPtr == m
      ensures old(clipboardManagerPtr) != null ==> m == old(clipboardManagerPtr)
      ensures old(clipboardManagerPtr) == null ==> fresh(m)
    {
      if clipboardManagerPtr == null {
        clipboardManagerPtr := new ClipboardManagerDefault();
      }
      m := clipboardManagerPtr;
    }
  }

  /** Every call after the first returns the instance the first one created. */
  method RepeatedCallsShareInstance(h: ClipboardHolder) returns (first: ClipboardManagerDefault, later: ClipboardManagerDefault)
    modifies h
    ensures first == later && h.clipboardManagerPtr == first
    ensures old(h.clipboardManagerPtr) == null ==> fresh(first)
  {
    first := h.ClipboardManager();
    later := h.ClipboardManager();
  }
}
