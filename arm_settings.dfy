/**
 * `SiteExtensionArmSettings`: the per-extension operation record, kept in a
 * JSON settings file under the site-extension settings root and cached in
 * memory by each instance. The file system is a map from file path to the
 * record stored there.
 */
module ArmSettings {
  import opened Nullable
  import opened NetText
  import opened Contracts

  const StatusSettingsFileName := "SiteExtensionSetting.json"

  /**
   * The JSON object in one settings file. `provisioningState` and `comment`
   * are the declared settings; `operation` and `status` are the `Operation`
   * and `Status` properties the controller reads and writes. An absent key
   * reads as null (`Unrecorded` for the status).
   */
  datatype Record = Record(
    provisioningState: Option<string>,
    comment: Option<string>,
    operation: Option<string>,
    status: StatusCode)

  /** The object read from a settings file that does not exist. */
  const EmptyRecord := Record(None, None, None, Unrecorded)

  /** What reading a settings file yields: the stored object, or an empty one when there is no file. */
  function ReadFile(files: map<string, Record>, path: string): Record {
    if path in files then files[path] else EmptyRecord
  }

  /** The settings file of extension `id`: rootPath, then id, then the fixed file name. */
  function GetFilePath(rootPath: string, id: string): (path: string)
    ensures |path| >= |StatusSettingsFileName|
    ensures path[|path| - |StatusSettingsFileName|..] == StatusSettingsFileName
  {
    Combine(rootPath, id, StatusSettingsFileName)
  }

  /** An extension id with no directory or volume separator in it. */
  predicate PlainId(id: string) {
    forall i :: 0 <= i < |id| ==> !IsDirectorySeparator(id[i]) && id[i] != VolumeSeparatorChar
  }

  /** Combining one root with two different relative parts gives two different paths. */
  lemma CombineTwoInjective(rootPath: string, x: string, y: string)
    requires |x| > 0 && |y| > 0 && !IsPathRooted(x) && !IsPathRooted(y)
    requires CombineTwo(rootPath, x) == CombineTwo(rootPath, y)
    ensures x == y
  {
    var p := CombineTwo(rootPath, x);
    assert |p| - |x| == |CombineTwo(rootPath, y)| - |y|;
    assert x == p[|p| - |x|..] == y;
  }

  /** The settings file name is a relative, non-empty path part. */
  lemma FileNameIsRelative()
    ensures |StatusSettingsFileName| > 0 && !IsPathRooted(StatusSettingsFileName)
  {
    assert StatusSettingsFileName[0] == 'S' && StatusSettingsFileName[1] == 'i';
  }

  /** For a non-empty plain id, the file name follows the combined directory after one separator. */
  lemma FilePathOfPlainId(rootPath: string, id: string)
    requires PlainId(id) && |id| > 0
    ensures |CombineTwo(rootPath, id)| >= |rootPath| + |id|
    ensures GetFilePath(rootPath, id) == CombineTwo(rootPath, id) + [DirectorySeparatorChar] + StatusSettingsFileName
  {
    FileNameIsRelative();
    var a := CombineTwo(rootPath, id);
    assert a[|a| - 1] == id[|id| - 1];
  }

  /** Distinct plain ids under one root have distinct settings path strings. */
  lemma DistinctIdsDistinctPaths(rootPath: string, id1: string, id2: string)
    requires PlainId(id1) && PlainId(id2) && id1 != id2
    ensures GetFilePath(rootPath, id1) != GetFilePath(rootPath, id2)
  {
    var f := StatusSettingsFileName;
    if |id1| > 0 && |id2| > 0 {
      FilePathOfPlainId(rootPath, id1);
      FilePathOfPlainId(rootPath, id2);
      var a1, a2 := CombineTwo(rootPath, id1), CombineTwo(rootPath, id2);
      if a1 + [DirectorySeparatorChar] + f == a2 + [DirectorySeparatorChar] + f {
        assert a1 == (a1 + [DirectorySeparatorChar] + f)[..|a1|] == (a2 + [DirectorySeparatorChar] + f)[..|a2|] == a2;
        CombineTwoInjective(rootPath, id1, id2);
      }
    } else if |id1| > 0 {
      FilePathOfPlainId(rootPath, id1);
      assert |GetFilePath(rootPath, id2)| <= |rootPath| + 1 + |f|;
    } else {
      FilePathOfPlainId(rootPath, id2);
      assert |GetFilePath(rootPath, id1)| <= |rootPath| + 1 + |f|;
    }
  }

  /**
   * A non-empty plain id and the same id with a trailing separator share one
   * settings path string: no separator is added after the one already there.
   */
  lemma TrailingSeparatorSharesFile(rootPath: string, id: string)
    requires PlainId(id) && |id| > 0
    ensures GetFilePath(rootPath, id) == GetFilePath(rootPath, id + "\\")
  {
    FileNameIsRelative();
    var a := CombineTwo(rootPath, id);
    assert !IsPathRooted(id + "\\") by { assert (id + "\\")[0] == id[0]; assert |id| >= 2 ==> (id + "\\")[1] == id[1]; }
    assert CombineTwo(rootPath, id + "\\") == a + "\\";
    FilePathOfPlainId(rootPath, id);
  }

  /** For example, ids `a` and `a\` share a settings path string under every root. */
  lemma TrailingSeparatorExample(rootPath: string)
    ensures GetFilePath(rootPath, "a") == GetFilePath(rootPath, "a\\")
  {
    assert PlainId("a") && "a" + "\\" == "a\\";
    TrailingSeparatorSharesFile(rootPath, "a");
  }

  /** A rooted id escapes the settings root: the root plays no part in its path. */
  lemma RootedIdIgnoresRoot(rootPath1: string, rootPath2: string, id: string)
    requires IsPathRooted(id)
    ensures GetFilePath(rootPath1, id) == GetFilePath(rootPath2, id)
  {
  }

  /** The durable settings files, shared by every settings instance. */
  class FileStore {
    var files: map<string, Record>

    constructor (files: map<string, Record>)
      ensures this.files == files
    {
      this.files := files;
    }
  }

  class SiteExtensionArmSettings {
    const store: FileStore
    const filePath: string
    var cache: Record

    function ProvisioningState(): Option<string>
      reads this
    {
      cache.provisioningState
    }

    function Comment(): Option<string>
      reads this
    {
      cache.comment
    }

    function Operation(): Option<string>
      reads this
    {
      cache.operation
    }

    function Status(): StatusCode
      reads this
    {
      cache.status
    }

    method SetProvisioningState(value: Option<string>)
      modifies this
      ensures ProvisioningState() == value
      ensures Comment() == old(Comment()) && Operation() == old(Operation()) && Status() == old(Status())
      ensures store.files == old(store.files)
    {
      cache := cache.(provisioningState := value);
    }

    method SetComment(value: Option<string>)
      modifies this
      ensures Comment() == value
      ensures ProvisioningState() == old(ProvisioningState()) && Operation() == old(Operation()) && Status() == old(Status())
      ensures store.files == old(store.files)
    {
      cache := cache.(comment := value);
    }

    method SetOperation(value: Option<string>)
      modifies this
      ensures Operation() == value
      ensures ProvisioningState() == old(ProvisioningState()) && Comment() == old(Comment()) && Status() == old(Status())
      ensures store.files == old(store.files)
    {
      cache := cache.(operation := value);
    }

    /** The private constructor: loads the cache from the file at `path`. */
    constructor (store: FileStore, path: string)
      ensures this.store == store && filePath == path
      ensures cache == ReadFile(store.files, path)
    {
      this.store := store;
      filePath := path;
      cache := ReadFile(store.files, path);
    }

    /**
     * Loads the record of `id` (or an empty one), sets its provisioning
     * state to Created and saves it; every other field keeps its stored value.
     */
    static method CreateSettingInstance(store: FileStore, rootPath: string, id: string)
      returns (settings: SiteExtensionArmSettings)
      modifies store
      ensures fresh(settings) && settings.store == store
      ensures settings.filePath == GetFilePath(rootPath, id)
      ensures settings.cache == ReadFile(old(store.files), settings.filePath).(provisioningState := Some(ProvisioningStateCreated))
      ensures store.files == old(store.files)[settings.filePath := settings.cache]
    {
      settings := new SiteExtensionArmSettings(store, GetFilePath(rootPath, id));
      settings.SetProvisioningState(Some(ProvisioningStateCreated));
      settings.SaveArmSettings();
    }

    static method GetSettings(store: FileStore, rootPath: string, id: string)
      returns (settings: SiteExtensionArmSettings)
      ensures fresh(settings) && settings.store == store
      ensures settings.filePath == GetFilePath(rootPath, id)
      ensures settings.cache == ReadFile(store.files, settings.filePath)
    {
      settings := new SiteExtensionArmSettings(store, GetFilePath(rootPath, id));
    }

    /** Reloads the cache from the file, discarding unsaved changes. */
    method RefreshArmSettingsCache()
      modifies this
      ensures cache == ReadFile(store.files, filePath)
      ensures store.files == old(store.files)
    {
      cache := ReadFile(store.files, filePath);
    }

    /** Writes the whole cache to the file; no other file changes. */
    method SaveArmSettings()
      modifies store
      ensures store.files == old(store.files)[filePath := cache]
      ensures cache == old(cache)
    {
      store.files := store.files[filePath := cache];
    }

    /** The descriptor `info` with the cached provisioning state and comment written over its own. */
    function FillSiteExtensionInfo(info: SiteExtensionInfo): (filled: SiteExtensionInfo)
      reads this
      ensures filled.provisioningState == ProvisioningState() && filled.comment == Comment()
      ensures filled.id == info.id && filled.version == info.version && filled.feedUrl == info.feedUrl
    {
      info.(provisioningState := ProvisioningState(), comment := Comment())
    }

    /** Copies the descriptor's provisioning state and comment into the cache. */
    method ReadSiteExtensionInfo(info: SiteExtensionInfo)
      modifies this
      ensures ProvisioningState() == info.provisioningState && Comment() == info.comment
      ensures Operation() == old(Operation()) && Status() == old(Status())
      ensures store.files == old(store.files)
    {
      SetProvisioningState(info.provisioningState);
      SetComment(info.comment);
    }

    /** Deletes the settings file if there is one; no other file changes. */
    method RemoveArmSettings()
      modifies store
      ensures store.files == old(store.files) - {filePath}
    {
      if filePath in store.files {
        store.files := store.files - {filePath};
      }
    }
  }

  /** After CreateSettingInstance, a fresh GetSettings of the same extension reads Created and the earlier comment. */
  method CreateThenGet(store: FileStore, rootPath: string, id: string)
    returns (created: SiteExtensionArmSettings, reread: SiteExtensionArmSettings)
    modifies store
    ensures reread.ProvisioningState() == Some(ProvisioningStateCreated)
    ensures reread.Comment() == ReadFile(old(store.files), GetFilePath(rootPath, id)).comment
    ensures reread.Operation() == ReadFile(old(store.files), GetFilePath(rootPath, id)).operation
    ensures reread.Status() == ReadFile(old(store.files), GetFilePath(rootPath, id)).status
  {
    created := SiteExtensionArmSettings.CreateSettingInstance(store, rootPath, id);
    reread := SiteExtensionArmSettings.GetSettings(store, rootPath, id);
  }

  /** A setter leaves the file alone; saving publishes the change to every later reader. */
  method SetThenSave(settings: SiteExtensionArmSettings, comment: Option<string>)
    returns (beforeSave: Record, afterSave: Record)
    modifies settings, settings.store
    ensures beforeSave == ReadFile(old(settings.store.files), settings.filePath)
    ensures afterSave == old(settings.cache).(comment := comment)
  {
    settings.SetComment(comment);
    beforeSave := ReadFile(settings.store.files, settings.filePath);
    settings.SaveArmSettings();
    afterSave := ReadFile(settings.store.files, settings.filePath);
  }

  /** Refreshing right after saving leaves the cache as it was. */
  method SaveThenRefresh(settings: SiteExtensionArmSettings)
    modifies settings, settings.store
    ensures settings.cache == old(settings.cache)
  {
    settings.SaveArmSettings();
    settings.RefreshArmSettingsCache();
  }

  /** Refreshing discards the unsaved changes of a setter. */
  method SetThenRefresh(settings: SiteExtensionArmSettings, state: Option<string>)
    modifies settings
    ensures settings.cache == ReadFile(settings.store.files, settings.filePath)
    ensures settings.store.files == old(settings.store.files)
  {
    settings.SetProvisioningState(state);
    settings.RefreshArmSettingsCache();
  }

  /** Reading a descriptor into the cache and filling another from it carries its state and comment over. */
  method ReadThenFill(settings: SiteExtensionArmSettings, source: SiteExtensionInfo, target: SiteExtensionInfo)
    returns (filled: SiteExtensionInfo)
    modifies settings
    ensures filled == target.(provisioningState := source.provisioningState, comment := source.comment)
  {
    settings.ReadSiteExtensionInfo(source);
    filled := settings.FillSiteExtensionInfo(target);
  }

  /** Removing twice is removing once, and files at other paths survive. */
  method RemoveTwice(settings: SiteExtensionArmSettings)
    modifies settings.store
    ensures settings.filePath !in settings.store.files
    ensures forall p :: p in old(settings.store.files) && p != settings.filePath ==>
              p in settings.store.files && settings.store.files[p] == old(settings.store.files)[p]
    ensures settings.store.files == old(settings.store.files) - {settings.filePath}
  {
    settings.RemoveArmSettings();
    settings.RemoveArmSettings();
  }
}
