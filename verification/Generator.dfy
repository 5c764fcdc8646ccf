// The synthetic fleet generator: a class that draws from its source as the
// program does.
module Generator {
  import opened Wrappers
  import opened Random
  import opened Analysis
  import opened Transformer
  import opened FleetDesign
  import opened FleetTheorems

  /** A record that does not pass validation, by its number. */
  datatype GenerateError = InvalidTransformer(number: nat, id: string, error: TransformerError)

  class Generator {
    const a: Analysis
    const r: nat -> real
    var pos: nat

    ghost predicate Seeded()
    {
      UnitStream(r)
    }

    constructor (a: Analysis, r: nat -> real)
      requires UnitStream(r)
      ensures Seeded() && this.a == a && this.r == r && pos == 0
    {
      this.a, this.r, pos := a, r, 0;
    }

    method Draw() returns (d: real)
      requires Seeded()
      modifies this`pos
      ensures d == DrawAt(r, old(pos)) && pos == old(pos) + 1 && 0.0 <= d < 1.0
    {
      d := DrawAt(r, pos);
      pos := pos + 1;
    }

    method SupportedHVs(mva: real, kvs: seq<real>) returns (hvs: seq<real>)
      ensures hvs == SupportedOrAll(mva, kvs)
    {
      var valid: seq<real> := [];
      for i := 0 to |kvs|
        invariant valid == Supported(mva, kvs[..i])
      {
        assert kvs[..i + 1][..i] == kvs[..i];
        if kvs[i] >= 345.0 && mva < 80.0 {
          continue;
        }
        if kvs[i] >= 230.0 && mva < 40.0 {
          continue;
        }
        valid := valid + [kvs[i]];
      }
      assert kvs[..|kvs|] == kvs;
      hvs := if |valid| == 0 then kvs else valid;
    }

    method VoltagePair(hvs: seq<real>, lvs: seq<real>) returns (hv: real, lv: real)
      requires Seeded() && hvs != [] && lvs != []
      modifies this`pos
      ensures pos == old(pos) + 2
      ensures var d2, d3 := DrawAt(r, old(pos)), DrawAt(r, old(pos) + 1);
              && 0.0 <= d2 < 1.0 && 0.0 <= d3 < 1.0
              && hv == Choose(hvs, d2) && lv == Choose(LowerOrAll(hv, lvs), d3)
    {
      var d2 := Draw();
      hv := hvs[Below(d2, |hvs|)];
      var valid: seq<real> := [];
      for i := 0 to |lvs|
        invariant valid == Lower(hv, lvs[..i])
      {
        assert lvs[..i + 1][..i] == lvs[..i];
        if lvs[i] < hv {
          valid := valid + [lvs[i]];
        }
      }
      assert lvs[..|lvs|] == lvs;
      var d3 := Draw();
      if |valid| == 0 {
        lv := lvs[Below(d3, |lvs|)];
      } else {
        lv := valid[Below(d3, |valid|)];
      }
    }

    method Cooling(mva: real) returns (c: string)
      requires Seeded()
      modifies this`pos
      ensures 0.0 <= DrawAt(r, old(pos)) < 1.0
      ensures c == CoolingFrom(mva, DrawAt(r, old(pos))) && pos == old(pos) + CoolingDraws(mva)
    {
      assert 0.0 <= DrawAt(r, pos) < 1.0;
      if mva < 15.0 {
        c := ONAN;
      } else if mva < 60.0 {
        c := ONAF;
      } else if mva < 150.0 {
        var d := Draw();
        c := [ONAF, OFAF][Below(d, 2)];
      } else {
        var d := Draw();
        c := [OFAF, ODAF, OFWF][Below(d, 3)];
      }
    }

    method Start() returns (s: Sketch)
      requires Seeded()
      modifies this`pos
      ensures s == SketchAt(a, r, old(pos)) && pos == old(pos) + 4
    {
      hide Below, LogBetween, Choose, SupportedOrAll, LowerOrAll;
      var d0 := Draw();
      var app := Below(d0, |VALID_APPLICATIONS|);
      var env := ENVELOPES[app];
      var d1 := Draw();
      var mva := LogBetween(a, d1, env.minPower, env.maxPower);
      var hvs := SupportedHVs(mva, env.hvs);
      var hv, lv := VoltagePair(hvs, env.lvs);
      s := Sketch(app, mva, hv, lv);
    }

    /** The next record. */
    method One(n: nat) returns (t: Transformer)
      requires Seeded()
      modifies this`pos
      ensures t == RecordAt(a, r, old(pos), n)
      ensures pos == old(pos) + 15 + CoolingDraws(SketchAt(a, r, old(pos)).mva)
    {
      hide SketchAt, IdFor, RecordFrom, RecordAt, CoolingFrom, CoolingDraws, DrawAt;
      ghost var k := pos;
      var s := Start();
      var frequency := Draw();
      var phases := Draw();
      var group := Draw();
      var impedance := Draw();
      var cooling := Cooling(s.mva);
      ghost var j := pos;
      var year := Draw();
      var noLoad := Draw();
      var load := Draw();
      var mass := Draw();
      var length := Draw();
      var width := Draw();
      var height := Draw();
      t := RecordFrom(a, IdFor(n), s, frequency, phases, group, impedance, cooling, year, noLoad, load, mass,
                      length, width, height);
      RecordAtIs(a, r, k, n, s, j);
    }

    /** A fleet of `n` records, or the first that does not pass validation. */
    method Generate(n: nat) returns (result: Result<seq<Transformer>, GenerateError>)
      requires Seeded()
      modifies this`pos
      ensures result.Ok? ==>
        && result.value == FleetOf(a, r, old(pos), n)
        && pos == PositionAfter(a, r, old(pos), n)
        && forall i :: 0 <= i < n ==> Valid(result.value[i])
      ensures result.Err? ==>
        && 0 < result.error.number <= n
        && result.error.id == IdFor(result.error.number)
        && Validate(MemberAt(a, r, old(pos), result.error.number - 1)) == Some(result.error.error)
        && forall i :: 0 <= i < result.error.number - 1 ==> Valid(MemberAt(a, r, old(pos), i))
      ensures Lawful(a) ==>
        && (result.Ok? <==> n < 1000)
        && (result.Err? ==> result.error == InvalidTransformer(1000, IdFor(1000), InvalidId))
    {
      hide RecordAt, Validate, IdFor, SketchAt, CoolingDraws, Plausible;
      var fleet: seq<Transformer> := [];
      ghost var k := pos;
      for i := 0 to n
        invariant pos == PositionAfter(a, r, k, i) && |fleet| == i && (Lawful(a) ==> i < 1000)
        invariant forall j :: 0 <= j < i ==> fleet[j] == MemberAt(a, r, k, j) && Valid(fleet[j])
      {
        var t := One(i + 1);
        RecordId(a, r, PositionAfter(a, r, k, i), i + 1);
        if Lawful(a) {
          EveryRecord(a, r, PositionAfter(a, r, k, i), i + 1);
        }
        var error := Validate(t);
        if error.Some? {
          return Err(InvalidTransformer(i + 1, t.id, error.value));
        }
        fleet := fleet + [t];
      }
      result := Ok(fleet);
    }
  }
}
