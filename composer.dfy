/**
 * A Cloud Composer environment as fuga's own client represents it: a short
 * `name`, the resource path `projects/<p>/locations/<l>/environments/<n>`,
 * and the `uuid`, `state` and `config` the API reports.
 */
module Composer {
  import opened Wrappers
  import Paths

  /** The JSON object the Composer API returns for one environment. */
  datatype EnvironmentResource = EnvironmentResource(name: string, uuid: string, state: string, config: map<string, string>)

  /** The `ValueError`s the constructor raises. */
  datatype InitError = NameAndPathMissing | ProjectOrLocationMissing | NameAndPathIncompatible

  /** The short name and resource path an environment ends up with. */
  datatype Identity = Identity(name: string, fullPath: string)

  /** `os.path.join('projects', projectId, 'locations', location, 'environments', name)`. */
  function FullPathFromName(projectId: string, location: string, name: string): string
  {
    Paths.Join(Paths.Join(Paths.Join(Paths.Join(Paths.Join("projects", projectId), "locations"), location), "environments"), name)
  }

  predicate IsSegment(s: string)
  {
    s != [] && '/' !in s
  }

  /** For plain segments the join is the familiar resource path. */
  lemma FullPathShape(projectId: string, location: string, name: string)
    requires IsSegment(projectId) && IsSegment(location)
    requires name == [] || name[0] != '/'
    ensures FullPathFromName(projectId, location, name) ==
      "projects" + "/" + projectId + "/" + "locations" + "/" + location + "/" + "environments" + "/" + name
  {
    assert projectId[|projectId| - 1] in projectId;
    assert location[|location| - 1] in location;
    var a := "projects" + "/" + projectId;
    Paths.JoinPlain("projects", projectId);
    assert a[|a| - 1] == projectId[|projectId| - 1];
    var b := a + "/" + "locations";
    Paths.JoinPlain(a, "locations");
    assert b[|b| - 1] == 's';
    var c := b + "/" + location;
    Paths.JoinPlain(b, location);
    assert c[|c| - 1] == location[|location| - 1];
    var d := c + "/" + "environments";
    Paths.JoinPlain(c, "environments");
    assert d[|d| - 1] == 's';
    Paths.JoinPlain(d, name);
  }

  /** For a slash-free short name, the basename of the derived path is the name again. */
  lemma NameRoundTrip(projectId: string, location: string, name: string)
    ensures '/' !in name ==> Paths.Basename(FullPathFromName(projectId, location, name)) == name
  {
    if '/' !in name {
      Paths.BasenameOfJoin(Paths.Join(Paths.Join(Paths.Join(Paths.Join("projects", projectId), "locations"), location), "environments"), name);
    }
  }

  /**
   * The name/path rule of `Environment.__init__`: a given path is kept, a
   * given name derives the path (and must agree with a given path), and a
   * path alone gives its basename as the name.
   */
  function ResolveIdentity(projectId: Option<string>, name: Option<string>, location: Option<string>, fullPath: Option<string>): (r: Result<Identity, InitError>)
    ensures r.Failure? <==>
      (name.None? && fullPath.None?) ||
      (name.Some? && (projectId.None? || location.None? ||
                      (fullPath.Some? && fullPath.value != FullPathFromName(projectId.value, location.value, name.value))))
    ensures r.Failure? ==>
      r.error == (if name.None? then NameAndPathMissing
                  else if projectId.None? || location.None? then ProjectOrLocationMissing
                  else NameAndPathIncompatible)
    ensures r.Success? && fullPath.Some? ==> r.value.fullPath == fullPath.value
    ensures r.Success? && name.Some? ==>
      r.value.name == name.value && r.value.fullPath == FullPathFromName(projectId.value, location.value, name.value)
    ensures r.Success? && name.None? ==> r.value.name == Paths.Basename(r.value.fullPath)
    ensures r.Success? && '/' !in r.value.name ==> Paths.Basename(r.value.fullPath) == r.value.name
  {
    if name.None? && fullPath.None? then Failure(NameAndPathMissing)
    else if name.Some? then
      if projectId.None? || location.None? then Failure(ProjectOrLocationMissing)
      else
        var derived := FullPathFromName(projectId.value, location.value, name.value);
        if fullPath.None? || fullPath.value == derived then
          NameRoundTrip(projectId.value, location.value, name.value);
          Success(Identity(name.value, derived))
        else Failure(NameAndPathIncompatible)
    else
      Success(Identity(Paths.Basename(fullPath.value), fullPath.value))
  }

  class Environment {
    var name: string
    var fullPath: string
    var uuid: Option<string>
    var projectId: Option<string>
    var location: Option<string>
    var state: Option<string>
    var config: Option<map<string, string>>

    constructor Init(id: Identity, uuid: Option<string>, projectId: Option<string>, location: Option<string>)
      ensures name == id.name && fullPath == id.fullPath
      ensures this.uuid == uuid && this.projectId == projectId && this.location == location
      ensures state.None? && config.None?
    {
      name := id.name;
      fullPath := id.fullPath;
      this.uuid := uuid;
      this.projectId := projectId;
      this.location := location;
      state := None;
      config := None;
    }

    /** `Environment(project=..., name=..., location=..., uuid=..., full_path=...)`, which raises `ValueError` on a bad combination. */
    static method New(projectId: Option<string>, name: Option<string>, location: Option<string>, uuid: Option<string>, fullPath: Option<string>)
      returns (r: Result<Environment, InitError>)
      ensures r.Failure? <==> ResolveIdentity(projectId, name, location, fullPath).Failure?
      ensures r.Failure? ==> r.error == ResolveIdentity(projectId, name, location, fullPath).error
      ensures r.Success? ==>
        fresh(r.value) &&
        Identity(r.value.name, r.value.fullPath) == ResolveIdentity(projectId, name, location, fullPath).value &&
        r.value.uuid == uuid && r.value.projectId == projectId && r.value.location == location
    {
      if name.None? && fullPath.None? {
        return Failure(NameAndPathMissing);
      }
      var n := name;
      var p := fullPath;
      if n.Some? {
        if projectId.None? || location.None? {
          return Failure(ProjectOrLocationMissing);
        }
        var derived := FullPathFromName(projectId.value, location.value, n.value);
        if p.None? {
          p := Some(derived);
        } else if p.value != derived {
          return Failure(NameAndPathIncompatible);
        }
      } else {
        n := Some(Paths.Basename(p.value));
      }
      var e := new Environment.Init(Identity(n.value, p.value), uuid, projectId, location);
      return Success(e);
    }

    /** `id`: an alias of `uuid`. */
    function Id(): (r: Option<string>)
      reads this
      ensures r == uuid
    {
      uuid
    }

    /** `set_properties_from_api_repr(resource)` */
    method SetPropertiesFromApiRepr(resource: EnvironmentResource)
      modifies this
      ensures state == Some(resource.state) && config == Some(resource.config)
      ensures name == old(name) && fullPath == old(fullPath) && uuid == old(uuid)
      ensures projectId == old(projectId) && location == old(location)
    {
      state := Some(resource.state);
      config := Some(resource.config);
    }

    /** `Environment.from_api_repr(resource, client)`: the path is the resource's `name`, the short name its basename. */
    static method FromApiRepr(resource: EnvironmentResource) returns (e: Environment)
      ensures fresh(e)
      ensures e.fullPath == resource.name && e.name == Paths.Basename(resource.name)
      ensures e.Id() == Some(resource.uuid)
      ensures e.state == Some(resource.state) && e.config == Some(resource.config)
      ensures e.projectId.None? && e.location.None?
    {
      var r := New(None, None, None, Some(resource.uuid), Some(resource.name));
      e := r.value;
      e.SetPropertiesFromApiRepr(resource);
    }
  }
}
