/** Loading the credentials record the viewer needs before it can talk to the
    helpdesk API. The model starts from the file's decoded top-level object. */
module Config {
  import opened Wrappers

  /** The config file: absent, or present with its decoded key/value pairs. */
  datatype ConfigFile = Absent | Present(fields: map<string, string>)

  /** Why a config was rejected: "Config file not found. Exiting..." or
      "Error: config file is missing required fields." */
  datatype ConfigError = NotFound | MissingFields

  /** The keys a usable config must contain. */
  const RequiredKeys: set<string> := {"subdomain", "email", "password"}

  /** load_config: the decoded record, when every required key is present. */
  function LoadConfig(file: ConfigFile): (r: Result<map<string, string>, ConfigError>)
    ensures r.Success? <==> file.Present? && RequiredKeys <= file.fields.Keys
    ensures r.Success? ==> r.value == file.fields
    ensures r == Failure(NotFound) <==> file.Absent?
  {
    match file
    case Absent => Failure(NotFound)
    case Present(config) =>
      if "subdomain" !in config || "email" !in config || "password" !in config then Failure(MissingFields)
      else Success(config)
  }

  /** Removing any one required key from an accepted record gets it rejected. */
  lemma EachKeyRequired(fields: map<string, string>, key: string)
    requires key in RequiredKeys
    ensures LoadConfig(Present(fields - {key})) == Failure(MissingFields)
  {
  }

  /** Keys beyond the required ones are neither needed nor dropped. */
  lemma ExtraKeysKept(fields: map<string, string>, key: string, value: string)
    requires LoadConfig(Present(fields)).Success?
    ensures LoadConfig(Present(fields[key := value])) == Success(fields[key := value])
  {
  }
}
