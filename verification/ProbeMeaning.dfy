/** What a probe concludes from the replies it gets. */
module ProbeMeaning {
  import opened Bytes
  import opened Protocol
  import opened Capabilities
  import opened Inventory
  import opened Startup
  import WireFormats

  /** The device type a version reply names. */
  predicate Names(a: Answer, t: DeviceType) {
    a.Reply? && a.frame.opcode == OP_GET_VERSION
    && a.frame.typeId == (if t.Rlht? then RLHT_TYPE_ID else DCMT_TYPE_ID)
  }

  /** The version in a reply of at least five bytes that parses. */
  predicate Carries(c: Contracts, a: Answer, v: ModuleVersion) {
    a.Reply? && |a.frame.payload| >= 5 && c.parseVersion(a.frame.payload) == Some(v)
  }

  /** A version reply of a supported type whose version parses and is compatible on both counts. */
  predicate Speaks(c: Contracts, a: Answer, t: DeviceType, v: ModuleVersion) {
    Names(a, t) && Carries(c, a, v) && c.crumbsCompatible(v.crumbs) && c.moduleCompatible(t, v)
  }

  /** The profile in a capability reply that parses. */
  predicate Reports(c: Contracts, a: Answer, q: CapsReport) {
    a.Reply? && a.frame.opcode == OP_GET_CAPS && c.parseCaps(a.frame.payload) == Some(q)
  }

  function Result(c: Contracts, version: Answer, caps: Answer, address: byte): ProbeRecord {
    Probe(c, [version, caps], 0, address).1
  }

  lemma ResultIsGated(c: Contracts, version: Answer, caps: Answer, address: byte)
    requires !Stale(version, OP_GET_VERSION) && !Stale(caps, OP_GET_CAPS)
    ensures var p := Gate(c, address, version);
            Result(c, version, caps, address)
            == if p.status.Supported? && ParseType(p.typeId).Some?
               then p.(profile := Refine(c, ParseType(p.typeId).value, caps)) else p
  {
    StaleSkipped([version, caps], 0, OP_GET_VERSION, 1, 0);
    StaleSkipped([version, caps], 1, OP_GET_CAPS, 1, 0);
  }

  /**
   A probe is supported if and only if the version reply names a supported type and carries a
   compatible version; the record then holds that type and version, and the profile of the
   capability reply if there is one that parses, else the type's baseline.
   */
  lemma SupportedMeaning(c: Contracts, version: Answer, caps: Answer, address: byte)
    requires !Stale(version, OP_GET_VERSION) && !Stale(caps, OP_GET_CAPS)
    ensures var p := Result(c, version, caps, address);
            && p.address == address
            && (p.status.Supported? <==> exists t, v :: Speaks(c, version, t, v))
            && (forall t, v | Speaks(c, version, t, v) ::
                  && p.typeId == TypeId(t) && p.version == v
                  && (forall q | Reports(c, caps, q) :: p.profile == Profile(q.schema, q.level, q.flags, Queried))
                  && ((forall q :: !Reports(c, caps, q)) ==> p.profile == BaselineProfile(t)))
  {
    ResultIsGated(c, version, caps, address);
    var p := Gate(c, address, version);
    if p.status.Supported? {
      assert Speaks(c, version, ParseType(p.typeId).value, p.version);
    }
    if caps.Reply? && caps.frame.opcode == OP_GET_CAPS && c.parseCaps(caps.frame.payload).Some? {
      assert Reports(c, caps, c.parseCaps(caps.frame.payload).value);
    }
  }

  /** Why a probe is not supported: what is wrong with its version reply, the first thing found. */
  lemma UnsupportedMeaning(c: Contracts, version: Answer, caps: Answer, address: byte)
    requires !Stale(version, OP_GET_VERSION) && !Stale(caps, OP_GET_CAPS)
    ensures var status := Result(c, version, caps, address).status;
            && (version.Failed? ==> status == VersionReadFailed)
            && (version.Reply? && version.frame.typeId !in {RLHT_TYPE_ID, DCMT_TYPE_ID} ==> status == UnsupportedType)
            && (forall t | Names(version, t) ::
                  if |version.frame.payload| < 5 || c.parseVersion(version.frame.payload).None? then
                    status == VersionReadFailed
                  else
                    var v := c.parseVersion(version.frame.payload).value;
                    && (!c.crumbsCompatible(v.crumbs) ==> status == IncompatibleCrumbsVersion)
                    && (c.crumbsCompatible(v.crumbs) && !c.moduleCompatible(t, v) ==> status == IncompatibleModuleMajor))
  {
    ResultIsGated(c, version, caps, address);
  }

  // ----- What a device publishes without a capability report -----------------------------------

  /** A heater on its baseline profile publishes everything but the clearing of trips. */
  lemma RlhtBaseline()
    ensures BaselineProfile(Rlht) == Profile(1, 1, BaselineProfile(Rlht).flags, BaselineFallback)
    ensures var flags := BaselineProfile(Rlht).flags;
            && WireFormats.Publishes(Rlht, flags, 1, "set_mode")
            && WireFormats.Publishes(Rlht, flags, 2, "set_setpoints")
            && WireFormats.Publishes(Rlht, flags, 3, "set_pid_x10")
            && WireFormats.Publishes(Rlht, flags, 4, "set_periods_ms")
            && WireFormats.Publishes(Rlht, flags, 5, "set_tc_select")
            && WireFormats.Publishes(Rlht, flags, 6, "set_open_duty_pct")
            && !WireFormats.Publishes(Rlht, flags, 7, "clear_watchdog_trip")
  {
    WireFormats.RlhtPublishes(BaselineProfile(Rlht).flags);
  }

  /** A motor module on its baseline profile publishes the open loop and the brakes, and no closed loop. */
  lemma DcmtBaseline()
    ensures BaselineProfile(Dcmt) == Profile(1, 1, BaselineProfile(Dcmt).flags, BaselineFallback)
    ensures var flags := BaselineProfile(Dcmt).flags;
            && WireFormats.Publishes(Dcmt, flags, 1, "set_open_loop")
            && WireFormats.Publishes(Dcmt, flags, 2, "set_brake")
            && WireFormats.Publishes(Dcmt, flags, 3, "set_mode")
            && !WireFormats.Publishes(Dcmt, flags, 4, "set_setpoint")
            && !WireFormats.Publishes(Dcmt, flags, 5, "set_pid_x1000")
            && !WireFormats.Publishes(Dcmt, flags, 7, "set_speed_pid_x1000")
            && !WireFormats.Publishes(Dcmt, flags, 6, "clear_watchdog_trip")
  {
    var flags := BaselineProfile(Dcmt).flags;
    WireFormats.DcmtPublishes(flags);
  }
}
