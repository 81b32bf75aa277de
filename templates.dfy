/** The three built-in pipeline templates (`pipelineTemplates`) and the
    facts `loadTemplate` relies on: each is well formed and has exactly one
    source, its repository. Icons are not modelled. */
module Templates {
  import opened Wrappers
  import opened PipelineGraph
  import opened Simulation

  /** A template component: hand-written id, no status, no description. */
  function Node(id: string, kind: string, name: string, x: real, y: real,
                hasInput: bool, hasOutput: bool, config: Config): Component
  {
    Component(Named(id), kind, name, x, y,
              if hasInput then ["input"] else [], if hasOutput then ["output"] else [],
              Some(config), Unset, None)
  }

  /** A template connection: no ports, no label. */
  function Edge(id: string, from: string, to: string): Connection
  {
    Connection(Named(id), Named(from), None, Named(to), None, None)
  }

  const CiCdBasic: Template := Template(
    "ci-cd-basic", "Basic CI/CD Pipeline",
    "A simple CI/CD pipeline with build, test, and deploy stages",
    [ Node("src-1", "source", "GitHub Repository", 100.0, 100.0, false, true,
           map["url" := Text("https://github.com/user/repo"), "branch" := Text("main")]),
      Node("build-1", "build", "Build Application", 300.0, 100.0, true, true,
           map["command" := Text("npm run build")]),
      Node("test-1", "test", "Run Tests", 500.0, 100.0, true, true,
           map["command" := Text("npm test")]),
      Node("deploy-1", "deploy", "Deploy to Production", 700.0, 100.0, true, false,
           map["target" := Text("production")]) ],
    [ Edge("conn-1", "src-1", "build-1"),
      Edge("conn-2", "build-1", "test-1"),
      Edge("conn-3", "test-1", "deploy-1") ],
    ["CI/CD", "Basic"])

  const MicroserviceDeploy: Template := Template(
    "microservice-deploy", "Microservice Deployment",
    "Pipeline for building and deploying microservices with containers",
    [ Node("src-1", "source", "Microservice Repo", 100.0, 100.0, false, true,
           map["url" := Text("https://github.com/user/microservice")]),
      Node("build-1", "build", "Build Service", 300.0, 100.0, true, true,
           map["command" := Text("npm run build")]),
      Node("test-1", "test", "Unit Tests", 500.0, 50.0, true, true,
           map["command" := Text("npm test")]),
      Node("test-2", "test", "Integration Tests", 500.0, 150.0, true, true,
           map["command" := Text("npm run test:integration")]),
      Node("container-1", "container", "Build Container", 700.0, 100.0, true, true,
           map["image" := Text("node:16-alpine")]),
      Node("deploy-1", "deploy", "Deploy Container", 900.0, 100.0, true, false,
           map["target" := Text("kubernetes")]) ],
    [ Edge("conn-1", "src-1", "build-1"),
      Edge("conn-2", "build-1", "test-1"),
      Edge("conn-3", "build-1", "test-2"),
      Edge("conn-4", "test-1", "container-1"),
      Edge("conn-5", "test-2", "container-1"),
      Edge("conn-6", "container-1", "deploy-1") ],
    ["Microservices", "Containers"])

  const DatabaseMigration: Template := Template(
    "database-migration", "Database Migration Pipeline",
    "Pipeline for safely performing database migrations",
    [ Node("src-1", "source", "Migration Scripts", 100.0, 100.0, false, true,
           map["url" := Text("https://github.com/user/db-migrations")]),
      Node("test-1", "test", "Validate Scripts", 300.0, 100.0, true, true,
           map["command" := Text("npm run validate")]),
      Node("backup-1", "storage", "Backup Database", 500.0, 100.0, true, true,
           map["type" := Text("backup"), "retention" := Text("7d")]),
      Node("db-1", "database", "Run Migrations", 700.0, 100.0, true, true,
           map["type" := Text("postgres"), "migrations" := Flag(true)]),
      Node("test-2", "test", "Verify Migration", 900.0, 100.0, true, false,
           map["command" := Text("npm run verify")]) ],
    [ Edge("conn-1", "src-1", "test-1"),
      Edge("conn-2", "test-1", "backup-1"),
      Edge("conn-3", "backup-1", "db-1"),
      Edge("conn-4", "db-1", "test-2") ],
    ["Database", "Migration"])

  const AllTemplates: seq<Template> := [CiCdBasic, MicroserviceDeploy, DatabaseMigration]

  /** Connection `k` runs from component `from[k]` to component `to[k]`. */
  predicate EdgesAt(cs: seq<Component>, es: seq<Connection>, from: seq<nat>, to: seq<nat>)
  {
    |from| == |es| && |to| == |es| &&
    forall k :: 0 <= k < |es| ==>
      from[k] < |cs| && to[k] < |cs| && cs[from[k]].id == es[k].from && cs[to[k]].id == es[k].to
  }

  lemma ClosedByIndices(cs: seq<Component>, es: seq<Connection>, from: seq<nat>, to: seq<nat>)
    requires EdgesAt(cs, es, from, to)
    ensures EdgesClosed(cs, es)
  {
    forall k | 0 <= k < |es|
      ensures HasId(cs, es[k].from) && HasId(cs, es[k].to)
    {
      assert cs[from[k]].id == es[k].from && cs[to[k]].id == es[k].to;
    }
  }

  /** With the first component unfed and every other one fed, the sources
      are exactly the first component. */
  lemma OneSourceByIndices(cs: seq<Component>, es: seq<Connection>, feeder: seq<nat>, id: Id)
    requires |cs| > 0 && |feeder| == |cs|
    requires forall a :: 0 < a < |cs| ==> feeder[a] < |es| && es[feeder[a]].to == cs[a].id
    requires forall k :: 0 <= k < |es| ==> es[k].to != cs[0].id
    ensures id in SourceIds(cs, es) <==> id == cs[0].id
  {
    SourceIdsExactly(cs, es, id);
    if HasId(cs, id) && id != cs[0].id {
      var a :| 0 <= a < |cs| && cs[a].id == id;
      assert es[feeder[a]].to == id;
    }
    assert cs[0].id == cs[0].id;
  }

  /** Components whose ids are listed, pairwise different, have distinct ids. */
  lemma IdsByList(cs: seq<Component>, ids: seq<string>)
    requires |ids| == |cs| && forall i :: 0 <= i < |cs| ==> cs[i].id == Named(ids[i])
    requires forall i, j :: 0 <= i < j < |ids| ==> ids[i] != ids[j]
    ensures IdsDistinct(cs)
  {
    forall i, j | 0 <= i < j < |cs| ensures ComponentId(cs[i]) != ComponentId(cs[j]) {
      assert cs[i].id == Named(ids[i]) && cs[j].id == Named(ids[j]);
    }
  }

  /** Connections whose endpoint pairs are listed, pairwise different, have
      distinct pairs. */
  lemma PairsByList(es: seq<Connection>, from: seq<Id>, to: seq<Id>)
    requires |from| == |es| && |to| == |es|
    requires forall k :: 0 <= k < |es| ==> es[k].from == from[k] && es[k].to == to[k]
    requires forall k, l :: 0 <= k < l < |es| ==> from[k] != from[l] || to[k] != to[l]
    ensures PairsDistinct(es)
  {
    forall k, l | 0 <= k < l < |es| ensures Endpoints(es[k]) != Endpoints(es[l]) {
      assert es[k].from == from[k] && es[k].to == to[k] && es[l].from == from[l] && es[l].to == to[l];
    }
  }

  /** The basic CI/CD template can be loaded. */
  lemma CiCdBasicWellFormed()
    ensures WellFormedTemplate(CiCdBasic)
  {
    var cs, es := CiCdBasic.components, CiCdBasic.connections;
    var src, build, test, deploy := "src-1", "build-1", "test-1", "deploy-1";
    IdsByList(cs, [src, build, test, deploy]);
    PairsByList(es, [Named(src), Named(build), Named(test)], [Named(build), Named(test), Named(deploy)]);
    ClosedByIndices(cs, es, [0, 1, 2], [1, 2, 3]);
  }

  /** A run of the basic CI/CD template starts at its repository alone. */
  lemma CiCdBasicSource(id: Id)
    ensures id in SourceIds(CiCdBasic.components, CiCdBasic.connections) <==> id == Named("src-1")
  {
    var cs, es := CiCdBasic.components, CiCdBasic.connections;
    assert forall k :: 0 <= k < |es| ==> es[k].to != cs[0].id;
    OneSourceByIndices(cs, es, [0, 0, 1, 2], id);
  }

  /** The microservice template can be loaded. */
  lemma MicroserviceDeployWellFormed()
    ensures WellFormedTemplate(MicroserviceDeploy)
  {
    var cs, es := MicroserviceDeploy.components, MicroserviceDeploy.connections;
    var src, build, test1, test2, container, deploy := "src-1", "build-1", "test-1", "test-2", "container-1", "deploy-1";
    IdsByList(cs, [src, build, test1, test2, container, deploy]);
    PairsByList(es, [Named(src), Named(build), Named(build), Named(test1), Named(test2), Named(container)],
                    [Named(build), Named(test1), Named(test2), Named(container), Named(container), Named(deploy)]);
    ClosedByIndices(cs, es, [0, 1, 1, 2, 3, 4], [1, 2, 3, 4, 4, 5]);
  }

  /** A run of the microservice template starts at its repository alone. */
  lemma MicroserviceDeploySource(id: Id)
    ensures id in SourceIds(MicroserviceDeploy.components, MicroserviceDeploy.connections) <==> id == Named("src-1")
  {
    var cs, es := MicroserviceDeploy.components, MicroserviceDeploy.connections;
    assert forall k :: 0 <= k < |es| ==> es[k].to != cs[0].id;
    OneSourceByIndices(cs, es, [0, 0, 1, 2, 3, 5], id);
  }

  /** The database-migration template can be loaded. */
  lemma DatabaseMigrationWellFormed()
    ensures WellFormedTemplate(DatabaseMigration)
  {
    var cs, es := DatabaseMigration.components, DatabaseMigration.connections;
    var src, test1, backup, db, test2 := "src-1", "test-1", "backup-1", "db-1", "test-2";
    IdsByList(cs, [src, test1, backup, db, test2]);
    PairsByList(es, [Named(src), Named(test1), Named(backup), Named(db)],
                    [Named(test1), Named(backup), Named(db), Named(test2)]);
    ClosedByIndices(cs, es, [0, 1, 2, 3], [1, 2, 3, 4]);
  }

  /** A run of the database-migration template starts at its migration scripts alone. */
  lemma DatabaseMigrationSource(id: Id)
    ensures id in SourceIds(DatabaseMigration.components, DatabaseMigration.connections) <==> id == Named("src-1")
  {
    var cs, es := DatabaseMigration.components, DatabaseMigration.connections;
    assert forall k :: 0 <= k < |es| ==> es[k].to != cs[0].id;
    OneSourceByIndices(cs, es, [0, 0, 1, 2, 3], id);
  }
}
