/** The dashboard rewrite in the Grafana provisioning script: point every panel (or, failing that,
    every query target of the panel) at the new datasource uid, count the rewrites, drop the keys
    that identify the stored dashboard, and wrap the result in the request payload. */
module GrafanaInit {

  import opened Wrappers
  import opened PyValue

  const PayloadMessage: string := "Updated by Python script"

  /** The exception `v.get(...)` raises on anything but a dict. */
  function NoGet(v: Value): PyError {
    AttributeError("'" + TypeName(v) + "' object has no attribute 'get'")
  }

  /** `isinstance(fields.get(key), dict)` */
  predicate DictAt(fields: Dict, key: string) {
    key in fields && fields[key].Obj?
  }

  /** `isinstance(fields.get(key), list)` */
  predicate ListAt(fields: Dict, key: string) {
    key in fields && fields[key].Arr?
  }

  /** `fields["datasource"]["uid"] = uid` */
  function SetDatasourceUid(fields: Dict, uid: Value): (r: Dict)
    requires DictAt(fields, "datasource")
    ensures r.Keys == fields.Keys && DictAt(r, "datasource")
    ensures r["datasource"].fields == fields["datasource"].fields["uid" := uid]
    ensures forall k :: k in fields && k != "datasource" ==> r[k] == fields[k]
  {
    fields["datasource" := Obj(fields["datasource"].fields["uid" := uid])]
  }

  // ---------------------------------------------------------------------------
  // The rewrite, element by element

  /** One query target: a dict whose datasource is a dict gets the uid (one rewrite); any other
      dict is left alone; a non-dict raises at `target.get`. */
  function RewriteTarget(t: Value, uid: Value): Result<(Value, nat), PyError> {
    if !t.Obj? then Err(NoGet(t))
    else if DictAt(t.fields, "datasource") then Ok((Obj(SetDatasourceUid(t.fields, uid)), 1))
    else Ok((t, 0))
  }

  /** The targets in order, stopping at the first that raises. */
  function RewriteTargets(ts: seq<Value>, uid: Value): (r: Result<(seq<Value>, nat), PyError>)
    ensures r.Ok? ==> |r.value.0| == |ts|
    decreases |ts|
  {
    if ts == [] then Ok(([], 0))
    else match RewriteTargets(ts[..|ts| - 1], uid)
      case Err(e) => Err(e)
      case Ok((init, n)) =>
        match RewriteTarget(ts[|ts| - 1], uid)
        case Err(e) => Err(e)
        case Ok((t, m)) => Ok((init + [t], n + m))
  }

  /** One panel: a dict datasource gets the uid and the targets are not looked at; otherwise a
      list of targets is rewritten; a non-dict raises at `panel.get`. */
  function RewritePanel(p: Value, uid: Value): Result<(Value, nat), PyError> {
    if !p.Obj? then Err(NoGet(p))
    else if DictAt(p.fields, "datasource") then Ok((Obj(SetDatasourceUid(p.fields, uid)), 1))
    else if ListAt(p.fields, "targets") then
      match RewriteTargets(p.fields["targets"].items, uid)
      case Err(e) => Err(e)
      case Ok((ts, n)) => Ok((Obj(p.fields["targets" := Arr(ts)]), n))
    else Ok((p, 0))
  }

  /** The panels in order, stopping at the first that raises. */
  function RewritePanels(ps: seq<Value>, uid: Value): (r: Result<(seq<Value>, nat), PyError>)
    ensures r.Ok? ==> |r.value.0| == |ps|
    decreases |ps|
  {
    if ps == [] then Ok(([], 0))
    else match RewritePanels(ps[..|ps| - 1], uid)
      case Err(e) => Err(e)
      case Ok((init, n)) =>
        match RewritePanel(ps[|ps| - 1], uid)
        case Err(e) => Err(e)
        case Ok((p, m)) => Ok((init + [p], n + m))
  }

  /** What `for panel in dashboard.get("panels", [])` iterates: a missing key gives no panels; a
      list gives its items; a non-empty string or dict gives strings, on which `.get` raises; an
      empty one gives nothing; None and numbers are not iterable. */
  function PanelItems(fields: Dict): Result<seq<Value>, PyError> {
    if "panels" !in fields then Ok([])
    else match fields["panels"]
      case Arr(items) => Ok(items)
      case Str(s) => if s == [] then Ok([]) else Err(NoGet(Str([s[0]])))
      case Obj(m) => if m == map[] then Ok([]) else Err(NoGet(Str("")))
      case other => Err(TypeError("'" + TypeName(other) + "' object is not iterable"))
  }

  /** The keys `create_dashboard` pops before sending the dashboard. */
  const DroppedKeys: set<string> := {"id", "uid", "version"}

  /** The dashboard after the uid rewrite and the three pops, with the number of rewrites. */
  function RewriteDashboard(dashboard: Value, uid: Value): Result<(Dict, nat), PyError> {
    if !dashboard.Obj? then Err(NoGet(dashboard))
    else
      var fields := dashboard.fields;
      match PanelItems(fields)
      case Err(e) => Err(e)
      case Ok(panels) =>
        match RewritePanels(panels, uid)
        case Err(e) => Err(e)
        case Ok((ps, n)) =>
          var rewritten := if ListAt(fields, "panels") then fields["panels" := Arr(ps)] else fields;
          Ok((rewritten - DroppedKeys, n))
  }

  /** `dashboard_payload`: the request body for `/api/dashboards/db`. */
  function DashboardPayload(dashboard: Dict): (p: Dict)
    ensures p.Keys == {"dashboard", "overwrite", "message"}
    ensures p["dashboard"] == Obj(dashboard) && p["overwrite"] == Bool(true) && p["message"] == Str(PayloadMessage)
  {
    map["dashboard" := Obj(dashboard), "overwrite" := Bool(true), "message" := Str(PayloadMessage)]
  }

  // ---------------------------------------------------------------------------
  // The loop as the script runs it

  /** The nested loop of `create_dashboard` (lines that set `uid` and count `panels_updated`),
      then the three pops. The result is the rewritten dashboard and the count. */
  method UpdateDashboard(dashboard: Value, uid: Value) returns (r: Result<(Dict, nat), PyError>)
    ensures r == RewriteDashboard(dashboard, uid)
  {
    if !dashboard.Obj? {
      return Err(NoGet(dashboard));
    }
    var fields := dashboard.fields;
    var items := PanelItems(fields);
    if items.Err? {
      return Err(items.error);
    }
    var loop := UpdatePanels(items.value, uid);
    if loop.Err? {
      return Err(loop.error);
    }
    var (out, count) := loop.value;
    var updated := if "panels" in fields && fields["panels"].Arr? then fields["panels" := Arr(out)] else fields;
    var rewritten := updated - {"id"};
    rewritten := rewritten - {"uid"};
    rewritten := rewritten - {"version"};
    assert rewritten == updated - DroppedKeys;
    r := Ok((rewritten, count));
  }

  /** The outer loop over the panels. */
  method UpdatePanels(panels: seq<Value>, uid: Value) returns (r: Result<(seq<Value>, nat), PyError>)
    ensures r == RewritePanels(panels, uid)
  {
    var out: seq<Value> := [];
    var count: nat := 0;
    var i := 0;
    while i < |panels|
      invariant 0 <= i <= |panels|
      invariant RewritePanels(panels[..i], uid) == Ok((out, count))
    {
      var step := UpdatePanel(panels[i], uid);
      PanelsStep(panels, i, uid);
      if step.Err? {
        RewriteErrorPersists(panels, i + 1, uid);
        return Err(step.error);
      }
      out := out + [step.value.0];
      count := count + step.value.1;
      i := i + 1;
    }
    assert panels[..i] == panels;
    r := Ok((out, count));
  }

  /** The body of the outer loop for one panel. */
  method UpdatePanel(panel: Value, uid: Value) returns (r: Result<(Value, nat), PyError>)
    ensures r == RewritePanel(panel, uid)
  {
    if !panel.Obj? {
      return Err(NoGet(panel));
    }
    var pf := panel.fields;
    var count := 0;
    if "datasource" in pf && pf["datasource"].Obj? {
      pf := pf["datasource" := Obj(pf["datasource"].fields["uid" := uid])];
      count := count + 1;
    } else if "targets" in pf && pf["targets"].Arr? {
      var targets := UpdateTargets(pf["targets"].items, uid);
      if targets.Err? {
        return Err(targets.error);
      }
      pf := pf["targets" := Arr(targets.value.0)];
      count := count + targets.value.1;
    }
    r := Ok((Obj(pf), count));
  }

  /** One more panel: the run over `ps[..i + 1]` extends the run over `ps[..i]` by panel `i`. */
  lemma PanelsStep(ps: seq<Value>, i: nat, uid: Value)
    requires i < |ps| && RewritePanels(ps[..i], uid).Ok?
    ensures var before := RewritePanels(ps[..i], uid).value;
            RewritePanels(ps[..i + 1], uid)
            == match RewritePanel(ps[i], uid)
               case Err(e) => Err(e)
               case Ok((p, m)) => Ok((before.0 + [p], before.1 + m))
  {
    assert ps[..i + 1][..i] == ps[..i];
  }

  /** The inner loop over one panel's targets. */
  method UpdateTargets(targets: seq<Value>, uid: Value) returns (r: Result<(seq<Value>, nat), PyError>)
    ensures r == RewriteTargets(targets, uid)
  {
    var newTargets: seq<Value> := [];
    var added: nat := 0;
    var j := 0;
    while j < |targets|
      invariant 0 <= j <= |targets|
      invariant RewriteTargets(targets[..j], uid) == Ok((newTargets, added))
    {
      var step := UpdateTarget(targets[j], uid);
      TargetsStep(targets, j, uid);
      if step.Err? {
        TargetErrorPersists(targets, j + 1, uid);
        return Err(step.error);
      }
      newTargets := newTargets + [step.value.0];
      added := added + step.value.1;
      j := j + 1;
    }
    assert targets[..j] == targets;
    r := Ok((newTargets, added));
  }

  /** The body of the inner loop for one target. */
  method UpdateTarget(target: Value, uid: Value) returns (r: Result<(Value, nat), PyError>)
    ensures r == RewriteTarget(target, uid)
  {
    if !target.Obj? {
      return Err(NoGet(target));
    }
    var tf := target.fields;
    var count := 0;
    if "datasource" in tf && tf["datasource"].Obj? {
      tf := tf["datasource" := Obj(tf["datasource"].fields["uid" := uid])];
      count := 1;
    }
    r := Ok((Obj(tf), count));
  }

  /** Once a prefix of the panels raises, so does the whole run, with the same exception. */
  lemma {:induction false} RewriteErrorPersists(ps: seq<Value>, k: nat, uid: Value)
    requires k <= |ps| && RewritePanels(ps[..k], uid).Err?
    ensures RewritePanels(ps, uid) == RewritePanels(ps[..k], uid)
    decreases |ps| - k
  {
    if k < |ps| {
      assert ps[..k + 1][..k] == ps[..k];
      RewriteErrorPersists(ps, k + 1, uid);
    } else {
      assert ps[..k] == ps;
    }
  }

  lemma {:induction false} TargetErrorPersists(ts: seq<Value>, k: nat, uid: Value)
    requires k <= |ts| && RewriteTargets(ts[..k], uid).Err?
    ensures RewriteTargets(ts, uid) == RewriteTargets(ts[..k], uid)
    decreases |ts| - k
  {
    if k < |ts| {
      assert ts[..k + 1][..k] == ts[..k];
      TargetErrorPersists(ts, k + 1, uid);
    } else {
      assert ts[..k] == ts;
    }
  }

  // ---------------------------------------------------------------------------
  // What the rewrite does

  /** One more target: the run over `ts[..j + 1]` extends the run over `ts[..j]` by target `j`. */
  lemma TargetsStep(ts: seq<Value>, j: nat, uid: Value)
    requires j < |ts| && RewriteTargets(ts[..j], uid).Ok?
    ensures var before := RewriteTargets(ts[..j], uid).value;
            RewriteTargets(ts[..j + 1], uid)
            == match RewriteTarget(ts[j], uid)
               case Err(e) => Err(e)
               case Ok((t, m)) => Ok((before.0 + [t], before.1 + m))
  {
    assert ts[..j + 1][..j] == ts[..j];
  }

  /** Whether a target gets the uid. */
  predicate TargetRewritten(t: Value) {
    t.Obj? && DictAt(t.fields, "datasource")
  }

  /** Number of targets that get the uid, counted from the front. */
  function TargetRewrites(ts: seq<Value>): nat {
    if ts == [] then 0 else (if TargetRewritten(ts[0]) then 1 else 0) + TargetRewrites(ts[1..])
  }

  /** Number of rewrites one panel accounts for. */
  function PanelRewrites(p: Value): nat {
    if p.Obj? && DictAt(p.fields, "datasource") then 1
    else if p.Obj? && ListAt(p.fields, "targets") then TargetRewrites(p.fields["targets"].items)
    else 0
  }

  function TotalRewrites(ps: seq<Value>): nat {
    if ps == [] then 0 else PanelRewrites(ps[0]) + TotalRewrites(ps[1..])
  }

  lemma {:induction false} TargetRewritesSnoc(ts: seq<Value>, t: Value)
    ensures TargetRewrites(ts + [t]) == TargetRewrites(ts) + (if TargetRewritten(t) then 1 else 0)
    decreases |ts|
  {
    if ts != [] {
      assert (ts + [t])[1..] == ts[1..] + [t];
      TargetRewritesSnoc(ts[1..], t);
    } else {
      assert [t][1..] == [];
    }
  }

  lemma {:induction false} TotalRewritesSnoc(ps: seq<Value>, p: Value)
    ensures TotalRewrites(ps + [p]) == TotalRewrites(ps) + PanelRewrites(p)
    decreases |ps|
  {
    if ps != [] {
      assert (ps + [p])[1..] == ps[1..] + [p];
      TotalRewritesSnoc(ps[1..], p);
    } else {
      assert [p][1..] == [];
    }
  }

  /** The targets loop succeeds exactly when every target is a dict; then each target is
      rewritten on its own, and the count is the number of targets with a dict datasource. */
  lemma TargetsPointwise(ts: seq<Value>, uid: Value)
    ensures RewriteTargets(ts, uid).Ok? <==> forall j :: 0 <= j < |ts| ==> ts[j].Obj?
    ensures RewriteTargets(ts, uid).Ok? ==>
              && RewriteTargets(ts, uid).value.1 == TargetRewrites(ts)
              && forall j :: 0 <= j < |ts| ==> RewriteTargets(ts, uid).value.0[j] == RewriteTarget(ts[j], uid).value.0
  {
    TargetsSucceed(ts, uid);
    if RewriteTargets(ts, uid).Ok? {
      TargetsCount(ts, uid);
      TargetsElements(ts, uid);
    }
  }

  lemma {:induction false} TargetsSucceed(ts: seq<Value>, uid: Value)
    ensures RewriteTargets(ts, uid).Ok? <==> forall j :: 0 <= j < |ts| ==> ts[j].Obj?
    decreases |ts|
  {
    if ts != [] {
      var init := ts[..|ts| - 1];
      TargetsSucceed(init, uid);
      assert forall j :: 0 <= j < |init| ==> init[j] == ts[j];
    }
  }

  lemma {:induction false} TargetsCount(ts: seq<Value>, uid: Value)
    requires RewriteTargets(ts, uid).Ok?
    ensures RewriteTargets(ts, uid).value.1 == TargetRewrites(ts)
    decreases |ts|
  {
    if ts != [] {
      var init := ts[..|ts| - 1];
      var last := ts[|ts| - 1];
      TargetsCount(init, uid);
      TargetRewritesSnoc(init, last);
      assert init + [last] == ts;
    }
  }

  lemma {:induction false} TargetsElements(ts: seq<Value>, uid: Value)
    requires RewriteTargets(ts, uid).Ok? && forall j :: 0 <= j < |ts| ==> ts[j].Obj?
    ensures forall j :: 0 <= j < |ts| ==> RewriteTargets(ts, uid).value.0[j] == RewriteTarget(ts[j], uid).value.0
    decreases |ts|
  {
    if ts != [] {
      var init := ts[..|ts| - 1];
      var last := ts[|ts| - 1];
      assert forall j :: 0 <= j < |init| ==> init[j] == ts[j];
      TargetsElements(init, uid);
      assert RewriteTargets(ts, uid).value.0 == RewriteTargets(init, uid).value.0 + [RewriteTarget(last, uid).value.0];
      forall j | 0 <= j < |ts| ensures RewriteTargets(ts, uid).value.0[j] == RewriteTarget(ts[j], uid).value.0 {
        if j < |init| {
          assert ts[j] == init[j];
        }
      }
    }
  }

  /** The panels loop succeeds exactly when every panel does; then each panel is rewritten on
      its own, and the count is the sum of the panels' rewrites. */
  lemma PanelsPointwise(ps: seq<Value>, uid: Value)
    ensures RewritePanels(ps, uid).Ok? <==> forall i :: 0 <= i < |ps| ==> RewritePanel(ps[i], uid).Ok?
    ensures RewritePanels(ps, uid).Ok? ==>
              && RewritePanels(ps, uid).value.1 == TotalRewrites(ps)
              && forall i :: 0 <= i < |ps| ==> RewritePanels(ps, uid).value.0[i] == RewritePanel(ps[i], uid).value.0
  {
    PanelsSucceed(ps, uid);
    if RewritePanels(ps, uid).Ok? {
      PanelsCount(ps, uid);
      PanelsElements(ps, uid);
    }
  }

  lemma {:induction false} PanelsSucceed(ps: seq<Value>, uid: Value)
    ensures RewritePanels(ps, uid).Ok? <==> forall i :: 0 <= i < |ps| ==> RewritePanel(ps[i], uid).Ok?
    decreases |ps|
  {
    if ps != [] {
      var init := ps[..|ps| - 1];
      PanelsSucceed(init, uid);
      assert forall i :: 0 <= i < |init| ==> init[i] == ps[i];
    }
  }

  lemma {:induction false} PanelsCount(ps: seq<Value>, uid: Value)
    requires RewritePanels(ps, uid).Ok?
    ensures RewritePanels(ps, uid).value.1 == TotalRewrites(ps)
    decreases |ps|
  {
    if ps != [] {
      var init := ps[..|ps| - 1];
      var last := ps[|ps| - 1];
      PanelsCount(init, uid);
      TotalRewritesSnoc(init, last);
      PanelCount(last, uid);
      assert init + [last] == ps;
    }
  }

  lemma {:induction false} PanelsElements(ps: seq<Value>, uid: Value)
    requires RewritePanels(ps, uid).Ok? && forall i :: 0 <= i < |ps| ==> RewritePanel(ps[i], uid).Ok?
    ensures forall i :: 0 <= i < |ps| ==> RewritePanels(ps, uid).value.0[i] == RewritePanel(ps[i], uid).value.0
    decreases |ps|
  {
    if ps != [] {
      var init := ps[..|ps| - 1];
      var last := ps[|ps| - 1];
      assert forall i :: 0 <= i < |init| ==> init[i] == ps[i];
      PanelsElements(init, uid);
      assert RewritePanels(ps, uid).value.0 == RewritePanels(init, uid).value.0 + [RewritePanel(last, uid).value.0];
      forall i | 0 <= i < |ps| ensures RewritePanels(ps, uid).value.0[i] == RewritePanel(ps[i], uid).value.0 {
        if i < |init| {
          assert ps[i] == init[i];
        }
      }
    }
  }

  /** A panel's own count agrees with PanelRewrites. */
  lemma PanelCount(p: Value, uid: Value)
    requires RewritePanel(p, uid).Ok?
    ensures RewritePanel(p, uid).value.1 == PanelRewrites(p)
  {
    if p.Obj? && !DictAt(p.fields, "datasource") && ListAt(p.fields, "targets") {
      TargetsPointwise(p.fields["targets"].items, uid);
    }
  }

  /** What happens to one panel. A dict datasource gets the uid and nothing else changes, so the
      targets are untouched; otherwise, with a list of targets, exactly the targets with a dict
      datasource get the uid; a panel with neither is left as it is. Keys are never added or
      removed. */
  lemma PanelEffect(p: Value, uid: Value)
    requires RewritePanel(p, uid).Ok?
    ensures var q := RewritePanel(p, uid).value.0;
            && p.Obj? && q.Obj? && q.fields.Keys == p.fields.Keys
            && (DictAt(p.fields, "datasource") ==>
                  && q.fields["datasource"].fields == p.fields["datasource"].fields["uid" := uid]
                  && forall k :: k in p.fields && k != "datasource" ==> q.fields[k] == p.fields[k])
            && (!DictAt(p.fields, "datasource") && ListAt(p.fields, "targets") ==>
                  var ts := p.fields["targets"].items;
                  && (forall k :: k in p.fields && k != "targets" ==> q.fields[k] == p.fields[k])
                  && q.fields["targets"].Arr? && |q.fields["targets"].items| == |ts|
                  && forall j :: 0 <= j < |ts| ==>
                       var t' := q.fields["targets"].items[j];
                       && ts[j].Obj?
                       && (TargetRewritten(ts[j]) ==>
                             t'.Obj? && t'.fields.Keys == ts[j].fields.Keys && DictAt(t'.fields, "datasource")
                             && t'.fields["datasource"].fields == ts[j].fields["datasource"].fields["uid" := uid]
                             && forall k :: k in ts[j].fields && k != "datasource" ==> t'.fields[k] == ts[j].fields[k])
                       && (!TargetRewritten(ts[j]) ==> t' == ts[j]))
            && (!DictAt(p.fields, "datasource") && !ListAt(p.fields, "targets") ==> q == p)
  {
    if !DictAt(p.fields, "datasource") && ListAt(p.fields, "targets") {
      TargetsPointwise(p.fields["targets"].items, uid);
    }
  }

  /** What happens to the dashboard: it succeeds exactly when it is a dict whose panels can be
      iterated and rewritten; then `id`, `uid` and `version` are gone, every other key is kept,
      only `panels` may change (and only when it is a list), and the count is the number of
      rewrites over all panels. */
  lemma DashboardEffect(dashboard: Value, uid: Value)
    ensures RewriteDashboard(dashboard, uid).Ok? <==>
              && dashboard.Obj? && PanelItems(dashboard.fields).Ok?
              && forall i :: 0 <= i < |PanelItems(dashboard.fields).value| ==>
                   RewritePanel(PanelItems(dashboard.fields).value[i], uid).Ok?
    ensures RewriteDashboard(dashboard, uid).Ok? ==>
              var (d, n) := RewriteDashboard(dashboard, uid).value;
              var panels := PanelItems(dashboard.fields).value;
              && d.Keys == dashboard.fields.Keys - DroppedKeys
              && (forall k :: k in d && k != "panels" ==> d[k] == dashboard.fields[k])
              && ("panels" in d && !ListAt(dashboard.fields, "panels") ==> d["panels"] == dashboard.fields["panels"])
              && ("panels" in d && ListAt(dashboard.fields, "panels") ==>
                    d["panels"].Arr? && |d["panels"].items| == |panels|
                    && forall i :: 0 <= i < |panels| ==> d["panels"].items[i] == RewritePanel(panels[i], uid).value.0)
              && n == TotalRewrites(panels)
  {
    if dashboard.Obj? && PanelItems(dashboard.fields).Ok? {
      PanelsPointwise(PanelItems(dashboard.fields).value, uid);
    }
  }
}
