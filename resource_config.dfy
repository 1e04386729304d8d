// Resolving the resource method a run request names
// (service/ResourceConfigurationService.java: getResourceMethodDefinition
// and its two lookups).
module ResourceConfig {
  import opened Wrappers
  import opened Strings
  import opened Errors
  import opened CiMaps
  import opened Resources

  /** The stored resource configurations, by exact name. */
  type Repository = map<string, ResourceConfiguration>

  /** What the method definition is built from. `methodName` is the name the
   *  caller gave, or the single method's name when none was given. */
  datatype Resolved = Resolved(
    methodName: string,
    property: ResourceMethodProperty,
    resource: Resource,
    config: ResourceConfiguration)

  function FindResourceConfigurationByName(repo: Repository, name: string): (r: Result<ResourceConfiguration, Error>)
    ensures r.Ok? <==> name in repo
    ensures r.Ok? ==> r.value == repo[name]
    ensures r.Err? ==> r.error == RestError(ResourceConfigurationNotFound)
  {
    if name in repo then Ok(repo[name]) else Err(RestError(ResourceConfigurationNotFound))
  }

  function GetResourceDto(config: ResourceConfiguration, resource: string): (r: Result<Resource, Error>)
    ensures r.Ok? <==> resource in config.resources
    ensures r.Ok? ==> r.value == config.resources[resource]
    ensures r.Err? ==> r.error == RestError(ResourceNotFound)
  {
    if resource in config.resources then Ok(config.resources[resource])
    else Err(RestError(ResourceNotFound))
  }

  /** The method name to look up: the caller's, or the first declared one. */
  function TargetMethodName(requested: Option<string>, r: Resource): string
    requires requested.None? ==> |r.methods| > 0
  {
    if requested.Some? then requested.value else r.methods[0].0
  }

  /** Looks the (possibly defaulted) method up ignoring case. */
  function GetResourceMethodDefinition(repo: Repository, configName: string, resource: string,
                                       requested: Option<string>): (r: Result<Resolved, Error>)
    ensures configName !in repo ==> r == Err(RestError(ResourceConfigurationNotFound))
    ensures configName in repo && resource !in repo[configName].resources ==>
              r == Err(RestError(ResourceNotFound))
    ensures r.Ok? ==> configName in repo && resource in repo[configName].resources
    ensures configName in repo && resource in repo[configName].resources ==>
              var res := repo[configName].resources[resource];
              && (IsBlank(requested) && |res.methods| != 1 ==> r == Err(RestError(MethodNameRequiredInRunRequest)))
              && (!(IsBlank(requested) && |res.methods| != 1) ==>
                    var target := TargetMethodName(requested, res);
                    match LastMatchIndex(res.methods, target)
                    case None => r == Err(RestError(ResourceMethodNotFound))
                    case Some(i) => r == Ok(Resolved(target, res.methods[i].1, res, repo[configName])))
  {
    var config :- FindResourceConfigurationByName(repo, configName);
    var res :- GetResourceDto(config, resource);
    if IsBlank(requested) && |res.methods| != 1 then
      Err(RestError(MethodNameRequiredInRunRequest))
    else
      var target := TargetMethodName(requested, res);
      var methods := CiPutAll(map[], res.methods);
      CiPutAllGet(map[], res.methods, target);
      match CiGet(methods, target)
      case None => Err(RestError(ResourceMethodNotFound))
      case Some(m) => Ok(Resolved(target, m, res, config))
  }

  /** With no method name and exactly one method, that method is used. */
  lemma DefaultsToTheOnlyMethod(repo: Repository, configName: string, resource: string,
                                name: string, m: ResourceMethodProperty)
    requires configName in repo && resource in repo[configName].resources
    requires repo[configName].resources[resource].methods == [(name, m)]
    ensures GetResourceMethodDefinition(repo, configName, resource, None).Ok?
    ensures GetResourceMethodDefinition(repo, configName, resource, None).value.methodName == name
    ensures GetResourceMethodDefinition(repo, configName, resource, None).value.property == m
  {
  }

  /** A blank but non-null name is not defaulted: unless a method is
   *  literally named that way, the lookup fails. */
  lemma BlankNameIsNotDefaulted(repo: Repository, configName: string, resource: string,
                                name: string, m: ResourceMethodProperty)
    requires configName in repo && resource in repo[configName].resources
    requires repo[configName].resources[resource].methods == [(name, m)]
    requires !EqualsIgnoreCase(name, " ")
    ensures GetResourceMethodDefinition(repo, configName, resource, Some(" ")) ==
            Err(RestError(ResourceMethodNotFound))
  {
  }

  /** The lookup ignores case and keeps the caller's spelling. */
  lemma LookupIgnoresCase(repo: Repository, configName: string, resource: string, m: ResourceMethodProperty)
    requires configName in repo && resource in repo[configName].resources
    requires repo[configName].resources[resource].methods == [("GET", m)]
    ensures GetResourceMethodDefinition(repo, configName, resource, Some("get")).Ok?
    ensures GetResourceMethodDefinition(repo, configName, resource, Some("get")).value.methodName == "get"
    ensures GetResourceMethodDefinition(repo, configName, resource, Some("get")).value.property == m
  {
    assert EqualsIgnoreCase("GET", "get") by {
      assert Lower("GET") == "get";
      assert Lower("get") == "get";
    }
  }
}
