/** On a clean link, to a device that acts on what it receives, the safe-output drive succeeds. */
module CleanDrive {
  import opened Protocol
  import opened CannedDevice
  import opened SessionModel
  import opened Capabilities
  import opened SetConfirm
  import opened RetryBound
  import opened SafeOutputs
  import opened RuntimeModel

  /** The link is clean from here on, and the device acts on every command. */
  ghost predicate Willing(env: Env, w: World, d: InventoryDevice) {
    Online(w, d.address) && CleanFrom(env, w.bus.tick) && Obedient(w.bus.devices[d.address])
  }

  /** Such a device takes what it is sent, acts on it and stays so. */
  lemma WillingTakes(env: Env, w: World, d: InventoryDevice, f: Frame)
    requires Willing(env, w, d) && IsCommand(f) && |f.payload| <= MAX_PAYLOAD
    ensures var p := Perform(env, w, d.address, SendFrame(f));
            var dev := w.bus.devices[d.address];
            && p.status.Ok() && Willing(env, p.world, d)
            && p.world.bus.devices[d.address].out == Act(dev.typeId, dev.out, f)
            && p.world.bus.devices[d.address].typeId == dev.typeId
  {
    CleanSend(env, w, d.address, f);
    assert TryOnce(env.tape, w.bus, d.address, SendFrame(f)).code.CodeOk?;
  }

  /** Such a device answers a SET with OK, confirmed or not, and stays so. */
  lemma WillingAnswers(env: Env, w: World, d: InventoryDevice, f: Frame)
    requires Willing(env, w, d) && IsCommand(f) && |f.payload| <= MAX_PAYLOAD
    ensures var (w', r) := TransmitConfirmed(env, w, d, f); Willing(env, w', d) && r.ok
  {
    if Confirmation(d).Unconfirmed? {
      WillingTakes(env, w, d, f);
    } else {
      CleanLinkAnswer(env, w, d, f);
    }
  }

  lemma WillingStep(env: Env, w: World, d: InventoryDevice, i: nat)
    requires Willing(env, w, d) && i < |Steps(d.deviceType)|
    ensures var (w', ok) := SendStep(env, d)(w, i); Willing(env, w', d) && ok
  {
    SafeStepIsConfirmed(env, w, d, i);
    WillingAnswers(env, w, d, SafeFrame(d.deviceType, i));
  }

  lemma {:induction false} DriveWithSucceeds(
    env: Env, send: (World, nat) -> (World, bool), d: InventoryDevice, n: nat, w: World, i: nat)
    requires i <= n && Willing(env, w, d)
    requires forall x: World, k: nat | Willing(env, x, d) && k < n :: Willing(env, send(x, k).0, d) && send(x, k).1
    ensures var r := DriveWith(send, n, w, i, []); r.failures == [] && Willing(env, r.world, d)
    decreases n - i
  {
    if i < n {
      DriveWithSucceeds(env, send, d, n, send(w, i).0, i + 1);
    }
  }

  /** The drive reports no failure. */
  lemma CleanDriveSucceeds(env: Env, w: World, d: InventoryDevice)
    requires Willing(env, w, d)
    ensures Drive(env, w, d).failures == [] && Willing(env, Drive(env, w, d).world, d)
  {
    var send := SendStep(env, d);
    forall x: World, k: nat | Willing(env, x, d) && k < |Steps(d.deviceType)|
      ensures Willing(env, send(x, k).0, d) && send(x, k).1
    {
      WillingStep(env, x, d, k);
    }
    DriveWithSucceeds(env, send, d, |Steps(d.deviceType)|, w, 0);
  }

  /** A drive clears a FAULT where the device is willing, whatever was on record before. */
  lemma CleanDriveClearsFault(env: Env, r: Runtime, d: InventoryDevice)
    requires Willing(env, r.world, d)
    ensures var r' := DriveDevice(env, r, d);
            !Fault(r', d.id) && r'.drives == r.drives + [DriveRecord(d, true)]
  {
    CleanDriveSucceeds(env, r.world, d);
  }
}
