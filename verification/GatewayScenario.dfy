/** A small world to build concrete runs in: one account that is a viewer of one
    org at first and has no role afterwards. */
module GatewayScenario {
  import opened Prelude
  import opened AuthzTypes
  import opened RoleCache
  import opened Gateway
  import opened GatewayInvariant
  import opened GatewayRuns

  const SUBJECT := "u"
  const ORG_ID := 7

  function SampleConfig(): Config
  {
    Config((x: string) => x, Lifetimes(30, 5), 30)
  }

  function SampleCaller(): Caller
  {
    Caller(SUBJECT, "")
  }

  /** Grafana while the account is a viewer. */
  function ViewerWorld(): World
  {
    World(0, map[SUBJECT := 1], map[1 := [Membership(ORG_ID, "viewer")]], [], map[])
  }

  function ViewerView(): RoleView
  {
    RoleView(Known, map[ORG_ID := RoleViewer])
  }

  /** Grafana after the role is gone. */
  function RevokedWorld(now: int): World
  {
    World(now, map[SUBJECT := 1], map[], [], map[])
  }

  function StartState(): State
  {
    State([ViewerWorld()], map[], map[], map[], map[], map[])
  }

  lemma StartIsRun()
    ensures IsRun(SampleConfig(), [StartState()]) && Inv(SampleConfig(), StartState()) && Sound(StartState())
  {
    assert IsRun(SampleConfig(), [StartState()]);
    RunsKeepInv(SampleConfig(), [StartState()], 0);
  }

  lemma ViewerRoles()
    ensures RolesOf(SampleConfig().lower, MembersOf(ViewerWorld(), 1)) == map[ORG_ID := RoleViewer]
  {
    var ms := [Membership(ORG_ID, "viewer")];
    assert TrimLeft("viewer") == "viewer" && Last("viewer") == 'r';
    assert TrimSpace("viewer") == "viewer";
    assert RoleFromGrafana(SampleConfig().lower, "viewer") == RoleViewer;
    assert Front(ms) == [] && MembersOf(ViewerWorld(), 1) == ms;
  }

  lemma NoRoles(now: int)
    ensures RolesOf(SampleConfig().lower, MembersOf(RevokedWorld(now), 1)) == map[]
  {
  }
}
