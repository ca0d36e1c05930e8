/**
 * The package-level functions of audiencemanager/__init__.py: the module-global configuration
 * that `importConfigFile` overwrites in place, the template of `createConfigFile`, and the
 * variants of the builders that differ from audiencemanager/audiencemanager.py.
 *
 * `json.load` is a parameter: it maps the text of a file to the value it parses to, or to
 * nothing when the text is not JSON.
 */
module Package {
  import opened Wrappers
  import opened PyValues
  import opened Connector
  import AudienceManager

  /** `json.load` on the text of a file. */
  type Loader = string -> Option<Json>

  /** The defaults of audiencemanager/config.py; `location` is the working directory. */
  function DefaultConfig(cwd: string): Fields
  {
    [("org_id", Str("")), ("client_id", Str("")), ("tech_id", Str("")), ("pathToKey", Str("")),
     ("secret", Str("")), ("companyid", Str("")), ("date_limit", Int(0)), ("tokenEndpoint", Str(TOKEN_ENDPOINT)),
     ("location", Str(cwd)), ("token", Str(""))]
  }

  const DEFAULT_HEADER: Fields :=
    [("Accept", Str("application/json")), ("Content-Type", Str("application/json")), ("Authorization", Str("")),
     ("X-Api-Key", Str("")), ("x-gw-ims-org-id", Str(""))]

  /** The two dicts after an import, and the exception that stopped it, if any. */
  datatype Imported = Imported(config: Fields, header: Fields, err: Option<Error>)

  // ---------------------------------------------------------------------------
  // importConfigFile

  /** Lines 61-66: find the file, read it and parse it, then apply it. */
  function ImportConfig(config: Fields, header: Fields, fs: FileSystem, path: string, load: Loader): Imported
  {
    match FindPath(fs, path)
    case None => Imported(config, header, Some(FileNotFoundError("Unable to find the configuration file under path `" + path + "`.")))
    case Some(q) =>
      match ReadText(fs, q)
      case Failure(e) => Imported(config, header, Some(e))
      case Success(text) =>
        match load(text)
        case None => Imported(config, header, Some(JSONDecodeError))
        case Some(f) => ApplyConfig(config, header, f)
  }

  /** Lines 69-72: `api_key` wins over `client_id`; with neither the old value stays. */
  function ClientIdFrom(config: Fields, file: Fields): Fields
  {
    match Get(file, "api_key")
    case Some(key) => Put(config, "client_id", key)
    case None =>
      match Get(file, "client_id")
      case Some(id) => Put(config, "client_id", id)
      case None => config
  }

  /** Lines 67-74: one assignment after the other, so a missing key stops the import with the
      assignments before it done. */
  function ApplyConfig(config: Fields, header: Fields, f: Json): Imported
  {
    match f
    case Dict(file) =>
      (match Get(file, "org_id")
       case None => Imported(config, header, Some(KeyError("org_id")))
       case Some(org) =>
         var config1 := Put(config, "org_id", org);
         var header1 := Put(header, "x-gw-ims-org-id", org);
         var config2 := ClientIdFrom(config1, file);
         match Get(config2, "client_id")
         case None => Imported(config2, header1, Some(KeyError("client_id")))
         case Some(client) =>
           var header2 := Put(Put(header1, "X-Api-Key", client), "Authorization", Str(""));
           CopyCredentials(config2, header2, file))
    case _ => Imported(config, header, Some(TypeError("subscript of a non-dict")))
  }

  /** Lines 75-78. */
  function CopyCredentials(config: Fields, header: Fields, file: Fields): Imported
  {
    match Get(file, "tech_id")
    case None => Imported(config, header, Some(KeyError("tech_id")))
    case Some(tech) =>
      var config1 := Put(config, "tech_id", tech);
      match Get(file, "secret")
      case None => Imported(config1, header, Some(KeyError("secret")))
      case Some(secret) =>
        var config2 := Put(config1, "secret", secret);
        match Get(file, "pathToKey")
        case None => Imported(config2, header, Some(KeyError("pathToKey")))
        case Some(key) => Imported(Put(Put(config2, "pathToKey", key), "date_limit", Int(0)), header, None)
  }

  /** The module-global `config.config_object` and `config.header`. */
  class GlobalConfig {
    var configObject: Fields
    var header: Fields

    constructor (cwd: string)
      ensures configObject == DefaultConfig(cwd) && header == DEFAULT_HEADER
    {
      configObject := DefaultConfig(cwd);
      header := DEFAULT_HEADER;
    }

    /** `importConfigFile(path)`: the entries are overwritten in place, in the order of the source. */
    method ImportConfigFile(fs: FileSystem, path: string, load: Loader) returns (err: Option<Error>)
      modifies this
      ensures ImportConfig(old(configObject), old(header), fs, path, load) == Imported(configObject, header, err)
    {
      var found := FindPath(fs, path);
      if found.None? {
        return Some(FileNotFoundError("Unable to find the configuration file under path `" + path + "`."));
      }
      var text := ReadText(fs, found.value);
      if text.Failure? {
        return Some(text.error);
      }
      var parsed := load(text.value);
      if parsed.None? {
        return Some(JSONDecodeError);
      }
      if !parsed.value.Dict? {
        return Some(TypeError("subscript of a non-dict"));
      }
      var file := parsed.value.fields;
      var org := Get(file, "org_id");
      if org.None? {
        return Some(KeyError("org_id"));
      }
      configObject := Put(configObject, "org_id", org.value);
      header := Put(header, "x-gw-ims-org-id", org.value);
      if HasKey(file, "api_key") {
        configObject := Put(configObject, "client_id", Get(file, "api_key").value);
      } else if HasKey(file, "client_id") {
        configObject := Put(configObject, "client_id", Get(file, "client_id").value);
      }
      var client := Get(configObject, "client_id");
      if client.None? {
        return Some(KeyError("client_id"));
      }
      header := Put(header, "X-Api-Key", client.value);
      header := Put(header, "Authorization", Str(""));
      var tech := Get(file, "tech_id");
      if tech.None? {
        return Some(KeyError("tech_id"));
      }
      configObject := Put(configObject, "tech_id", tech.value);
      var secret := Get(file, "secret");
      if secret.None? {
        return Some(KeyError("secret"));
      }
      configObject := Put(configObject, "secret", secret.value);
      var key := Get(file, "pathToKey");
      if key.None? {
        return Some(KeyError("pathToKey"));
      }
      configObject := Put(configObject, "pathToKey", key.value);
      configObject := Put(configObject, "date_limit", Int(0));
      return None;
    }
  }

  // ---------------------------------------------------------------------------
  // createConfigFile

  /** Lines 22-28: the placeholders of the template. */
  const CONFIG_TEMPLATE: Fields :=
    [("org_id", Str("<orgID>")), ("client_id", Str("<client_id>")),
     ("tech_id", Str("<something>@techacct.adobe.com")), ("secret", Str("<YourSecret>")),
     ("pathToKey", Str("<path/to/your/privatekey.key>"))]

  /** Lines 22-30: the placeholder configuration, with a sandbox entry when asked for. */
  function ConfigTemplate(sandbox: Json): Fields
  {
    if Truthy(sandbox) then Put(CONFIG_TEMPLATE, "sandbox-name", Str("<your_sandbox_name>")) else CONFIG_TEMPLATE
  }

  /** Line 31: `f"{kwargs.get('filename', 'config_aam')}.json"`. */
  function ConfigFileName(kwargs: Fields): string
  {
    PyStr(GetOrDefault(kwargs, "filename", Str("config_aam"))) + ".json"
  }

  // ---------------------------------------------------------------------------
  // The variants of the builders

  /** Lines 147-161: `getTraits` without `includeMetrics`. */
  function PackageTraitsParams(folderId: Json, integrationCode: Json, dataSourceIds: Json, includeDetails: Json): Fields
  {
    var p: Fields := [];
    var p := AudienceManager.PutIf(p, folderId != Null, "folderId", folderId);
    var p := AudienceManager.PutIf(p, integrationCode != Null, "integrationCode", integrationCode);
    var p := AudienceManager.PutIf(p, Truthy(includeDetails), "includeDetails", Bool(true));
    match dataSourceIds
    case List(ids) => Put(p, "dataSourceId", AudienceManager.DataSourceIdValue(ids))
    case _ => p
  }

  /** Lines 214-217 and 504-507: the ids of a list, each as its `str`. */
  function BulkIdStrings(ids: Json): Result<seq<Json>, Error>
  {
    match ids
    case List(items) => Success(seq(|items|, i requires 0 <= i < |items| => Str(PyStr(items[i]))))
    case _ => Failure(Exception(AudienceManager.BULK_NEEDS_LIST))
  }

  /** Lines 198-205 as written: the path is chosen as in `deleteTrait`, but the session has no
      `delete` method, so the call raises AttributeError. */
  function PackageDeleteTraits(traitId: Json, intCode: Json): Result<string, Error>
  {
    if traitId == Null && intCode == Null then Failure(Exception(AudienceManager.DELETE_TRAIT_NEEDS_ID))
    else Failure(AttributeError("delete"))
  }

  // ---------------------------------------------------------------------------
  // Lemmas

  /** A path that cannot be resolved raises FileNotFoundError before anything is read or changed. */
  lemma ImportFileMissing(config: Fields, header: Fields, fs: FileSystem, path: string, load: Loader)
    requires FindPath(fs, path).None?
    ensures var r := ImportConfig(config, header, fs, path, load);
      r.config == config && r.header == header && r.err.Some? && r.err.value.FileNotFoundError?
  {
  }

  /** The file is looked up as `find_path` does: the path itself, then under the working
      directory for a leading separator. */
  lemma ImportResolvesRelative(config: Fields, header: Fields, fs: FileSystem, path: string, load: Loader)
    requires !Exists(fs, path) && LeadingSeparator(path) && Exists(fs, "." + path) && ("." + path) in fs.text
    requires load(fs.text["." + path]).Some?
    ensures ImportConfig(config, header, fs, path, load) == ApplyConfig(config, header, load(fs.text["." + path]).value)
  {
  }

  /** Which `client_id` the configuration ends up with; no other key changes. */
  lemma ClientIdPrecedence(config: Fields, file: Fields, k: string)
    ensures Get(ClientIdFrom(config, file), k) ==
      if k != "client_id" then Get(config, k)
      else if HasKey(file, "api_key") then Get(file, "api_key")
      else if HasKey(file, "client_id") then Get(file, "client_id")
      else Get(config, "client_id")
  {
    if HasKey(file, "api_key") {
      GetPut(config, "client_id", Get(file, "api_key").value, k);
    } else if HasKey(file, "client_id") {
      GetPut(config, "client_id", Get(file, "client_id").value, k);
    }
  }

  /** When the import is complete. */
  predicate Complete(config: Fields, file: Fields)
  {
    && HasKey(file, "org_id") && HasKey(file, "tech_id") && HasKey(file, "secret") && HasKey(file, "pathToKey")
    && (HasKey(file, "api_key") || HasKey(file, "client_id") || HasKey(config, "client_id"))
  }

  /** The credentials step, which ends the import. */
  lemma {:induction false} CopyCredentialsState(config: Fields, header: Fields, file: Fields, k: string)
    ensures var r := CopyCredentials(config, header, file);
      && r.header == header
      && (r.err.None? <==> HasKey(file, "tech_id") && HasKey(file, "secret") && HasKey(file, "pathToKey"))
      && (r.err.None? ==>
            Get(r.config, k) ==
              if k == "date_limit" then Some(Int(0))
              else if k == "tech_id" || k == "secret" || k == "pathToKey" then Get(file, k)
              else Get(config, k))
  {
    if HasKey(file, "tech_id") && HasKey(file, "secret") && HasKey(file, "pathToKey") {
      var c1 := Put(config, "tech_id", Get(file, "tech_id").value);
      var c2 := Put(c1, "secret", Get(file, "secret").value);
      var c3 := Put(c2, "pathToKey", Get(file, "pathToKey").value);
      GetPut(config, "tech_id", Get(file, "tech_id").value, k);
      GetPut(c1, "secret", Get(file, "secret").value, k);
      GetPut(c2, "pathToKey", Get(file, "pathToKey").value, k);
      GetPut(c3, "date_limit", Int(0), k);
    }
  }

  /** After a complete import: `org_id`, `client_id` (by the precedence above), `tech_id`,
      `secret` and `pathToKey` come from the file, `date_limit` is 0, the header carries the
      organisation and the client id and an empty Authorization, and nothing else changes. */
  lemma {:induction false} ImportState(config: Fields, header: Fields, file: Fields, k: string)
    ensures var r := ApplyConfig(config, header, Dict(file));
      && (r.err.None? <==> Complete(config, file))
      && (r.err.None? ==>
            && Get(r.config, k) ==
                 (if k == "date_limit" then Some(Int(0))
                  else if k == "org_id" || k == "tech_id" || k == "secret" || k == "pathToKey" then Get(file, k)
                  else if k == "client_id" then Get(ClientIdFrom(config, file), "client_id")
                  else Get(config, k))
            && Get(r.header, k) ==
                 (if k == "x-gw-ims-org-id" then Get(file, "org_id")
                  else if k == "X-Api-Key" then Get(r.config, "client_id")
                  else if k == "Authorization" then Some(Str(""))
                  else Get(header, k)))
  {
    if org :| Get(file, "org_id") == Some(org) {
      var config1 := Put(config, "org_id", org);
      var header1 := Put(header, "x-gw-ims-org-id", org);
      var config2 := ClientIdFrom(config1, file);
      ClientIdPrecedence(config1, file, "client_id");
      GetPut(config, "org_id", org, "client_id");
      if client :| Get(config2, "client_id") == Some(client) {
        var header2 := Put(header1, "X-Api-Key", client);
        var header3 := Put(header2, "Authorization", Str(""));
        CopyCredentialsState(config2, header3, file, k);
        CopyCredentialsState(config2, header3, file, "client_id");
        GetPut(config, "org_id", org, k);
        ClientIdPrecedence(config, file, "client_id");
        ClientIdPrecedence(config1, file, k);
        GetPut(header, "x-gw-ims-org-id", org, k);
        GetPut(header1, "X-Api-Key", client, k);
        GetPut(header2, "Authorization", Str(""), k);
      } else {
        GetFindsKeys(config, "client_id");
        ClientIdPrecedence(config, file, "client_id");
      }
    }
  }

  /** Whether the import completes or stops midway, both remain dicts: each assignment
      replaces a key or adds a new one, never a duplicate. */
  lemma {:induction false} ImportKeepsDicts(config: Fields, header: Fields, f: Json)
    requires UniqueKeys(config) && UniqueKeys(header)
    ensures var r := ApplyConfig(config, header, f);
      UniqueKeys(r.config) && UniqueKeys(r.header)
  {
    if f.Dict? {
      var file := f.fields;
      if org :| Get(file, "org_id") == Some(org) {
        var config1 := Put(config, "org_id", org);
        var header1 := Put(header, "x-gw-ims-org-id", org);
        PutKeepsUniqueKeys(config, "org_id", org);
        PutKeepsUniqueKeys(header, "x-gw-ims-org-id", org);
        var config2 := ClientIdFrom(config1, file);
        if key :| Get(file, "api_key") == Some(key) {
          PutKeepsUniqueKeys(config1, "client_id", key);
        } else if id :| Get(file, "client_id") == Some(id) {
          PutKeepsUniqueKeys(config1, "client_id", id);
        }
        if client :| Get(config2, "client_id") == Some(client) {
          var header2 := Put(Put(header1, "X-Api-Key", client), "Authorization", Str(""));
          PutKeepsUniqueKeys(header1, "X-Api-Key", client);
          PutKeepsUniqueKeys(Put(header1, "X-Api-Key", client), "Authorization", Str(""));
          if tech :| Get(file, "tech_id") == Some(tech) {
            var c1 := Put(config2, "tech_id", tech);
            PutKeepsUniqueKeys(config2, "tech_id", tech);
            if secret :| Get(file, "secret") == Some(secret) {
              var c2 := Put(c1, "secret", secret);
              PutKeepsUniqueKeys(c1, "secret", secret);
              if path :| Get(file, "pathToKey") == Some(path) {
                PutKeepsUniqueKeys(c2, "pathToKey", path);
                PutKeepsUniqueKeys(Put(c2, "pathToKey", path), "date_limit", Int(0));
              }
            }
          }
        }
      }
    }
  }

  /** An import that stops on a missing key has still done the assignments before it: e.g. a
      file without `tech_id` has already replaced the organisation and the client id. */
  lemma {:induction false} ImportStopsMidway(config: Fields, header: Fields, file: Fields)
    requires HasKey(file, "org_id") && HasKey(file, "api_key") && !HasKey(file, "tech_id")
    ensures var r := ApplyConfig(config, header, Dict(file));
      r.err == Some(KeyError("tech_id"))
      && Get(r.config, "org_id") == Get(file, "org_id") && Get(r.config, "client_id") == Get(file, "api_key")
      && Get(r.header, "Authorization") == Some(Str(""))
  {
    var org := Get(file, "org_id").value;
    var config1 := Put(config, "org_id", org);
    ClientIdPrecedence(config1, file, "client_id");
    ClientIdPrecedence(config1, file, "org_id");
    GetPut(config, "org_id", org, "org_id");
    var client := Get(file, "api_key").value;
    var header1 := Put(header, "x-gw-ims-org-id", org);
    GetPut(Put(header1, "X-Api-Key", client), "Authorization", Str(""), "Authorization");
  }

  /** Before any import the session refuses to start: the default `org_id` is empty. */
  lemma NotConfiguredByDefault(cwd: string, fs: FileSystem, jwtClockMs: nat, limitClockMs: nat, sign: Signer,
                               post: TokenService)
    ensures StartSession(DefaultConfig(cwd), DEFAULT_HEADER, fs, jwtClockMs, limitClockMs, sign, post)
      == Failure(Exception(NOT_CONFIGURED))
  {
  }

  /** After a complete import, the session refuses to start exactly as the file's `org_id`
      decides: an empty one is refused before any request, any other goes on to the exchange. */
  lemma {:induction false} ImportedOrgIdDecidesConnect(config: Fields, header: Fields, file: Fields, fs: FileSystem,
                                                      jwtClockMs: nat, limitClockMs: nat, sign: Signer,
                                                      post: TokenService)
    requires Complete(config, file)
    ensures var r := ApplyConfig(config, header, Dict(file));
      var s := StartSession(r.config, r.header, fs, jwtClockMs, limitClockMs, sign, post);
      (Get(file, "org_id") == Some(Str("")) ==> s == Failure(Exception(NOT_CONFIGURED)))
      && (Get(file, "org_id") != Some(Str("")) ==>
            s.Success? == (TokenAndExpiry(r.config, fs, jwtClockMs, sign, post).Success? &&
                           ExpiryMillis(TokenAndExpiry(r.config, fs, jwtClockMs, sign, post).value.expiry).Success?))
  {
    var r := ApplyConfig(config, header, Dict(file));
    ImportState(config, header, file, "org_id");
    if Get(file, "org_id") != Some(Str("")) {
      StartSessionState(r.config, r.header, fs, jwtClockMs, limitClockMs, sign, post);
    }
  }

  /** The template has the five placeholder keys, and `sandbox-name` exactly when asked for. */
  lemma {:induction false} ConfigTemplateKeys(sandbox: Json)
    ensures Keys(ConfigTemplate(sandbox)) ==
      ["org_id", "client_id", "tech_id", "secret", "pathToKey"] + (if Truthy(sandbox) then ["sandbox-name"] else [])
    ensures HasKey(ConfigTemplate(sandbox), "sandbox-name") <==> Truthy(sandbox)
  {
    PlaceholderKeys();
    if Truthy(sandbox) {
      var v := Str("<your_sandbox_name>");
      PutKeys(CONFIG_TEMPLATE, "sandbox-name", v);
      GetPut(CONFIG_TEMPLATE, "sandbox-name", v, "sandbox-name");
    }
  }

  /** The placeholder keys, in order; `sandbox-name` is not among them. */
  lemma PlaceholderKeys()
    ensures Keys(CONFIG_TEMPLATE) == ["org_id", "client_id", "tech_id", "secret", "pathToKey"]
    ensures !HasKey(CONFIG_TEMPLATE, "sandbox-name")
  {
    GetFindsKeys(CONFIG_TEMPLATE, "sandbox-name");
  }

  /** The file name is the one given, or `config_aam`, with `.json` appended. */
  lemma ConfigFileNameCases(kwargs: Fields, name: string)
    ensures !HasKey(kwargs, "filename") ==> ConfigFileName(kwargs) == "config_aam.json"
    ensures Get(kwargs, "filename") == Some(Str(name)) ==> ConfigFileName(kwargs) == name + ".json"
  {
  }

  /** `getTraits` here is `getTraits` of the class with a falsy `includeMetrics`. */
  lemma PackageTraitsParamsNoMetrics(folderId: Json, integrationCode: Json, dataSourceIds: Json, includeDetails: Json)
    ensures PackageTraitsParams(folderId, integrationCode, dataSourceIds, includeDetails) ==
      AudienceManager.TraitsParams(folderId, Bool(false), integrationCode, dataSourceIds, includeDetails)
    ensures !HasKey(PackageTraitsParams(folderId, integrationCode, dataSourceIds, includeDetails), "includeMetrics")
  {
    AudienceManager.TraitsParamsGet(folderId, Bool(false), integrationCode, dataSourceIds, includeDetails, "includeMetrics");
  }

  /** The bulk deletes here accept exactly a list and send the text of every id; on ids that are
      already text they send what the class's versions send. */
  lemma BulkIdStringsChecks(ids: Json)
    ensures BulkIdStrings(ids).Success? <==> ids.List?
    ensures BulkIdStrings(ids).Success? ==>
      |BulkIdStrings(ids).value| == |ids.items|
      && forall i :: 0 <= i < |ids.items| ==> BulkIdStrings(ids).value[i] == Str(PyStr(ids.items[i]))
    ensures ids.List? && (forall i :: 0 <= i < |ids.items| ==> ids.items[i].Str?) ==>
      BulkIdStrings(ids) == AudienceManager.BulkIds(ids)
  {
    if ids.List? && forall i :: 0 <= i < |ids.items| ==> ids.items[i].Str? {
      var sent := BulkIdStrings(ids).value;
      assert forall i :: 0 <= i < |sent| ==> sent[i] == ids.items[i];
      assert sent == ids.items;
    }
  }

  /** As written, `deleteTraits` never sends a request. */
  lemma PackageDeleteTraitsAlwaysFails(traitId: Json, intCode: Json)
    ensures PackageDeleteTraits(traitId, intCode).Failure?
    ensures traitId != Null || intCode != Null ==> PackageDeleteTraits(traitId, intCode).error == AttributeError("delete")
  {
  }
}
