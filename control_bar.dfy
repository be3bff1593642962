/**
 * The control bar's visibility rule: which of the microphone, camera and
 * screen-share controls it shows, derived from the caller's `controls` and
 * the local participant's permissions, and which of them it renders.
 */
module ControlBar {
  import Js

  /**
   * A boolean property of a props object: absent, present with the value
   * `undefined`, or present with a boolean. Spreading an object copies
   * present properties, including those whose value is `undefined`.
   */
  datatype Field = Absent | Undefined | Value(b: bool)

  /** `??=` assigns exactly when the property is absent or undefined. */
  predicate IsNullish(f: Field) {
    f.Absent? || f.Undefined?
  }

  /** What a JSX guard `field && <Control/>` tests. */
  predicate IsTruthy(f: Field) {
    f == Value(true)
  }

  /** The caller's `controls` prop; an omitted prop is the record with every property absent. */
  datatype Controls = Controls(leave: Field, camera: Field, chat: Field, microphone: Field, screenShare: Field)

  /** The permissions of the local participant. */
  datatype Permissions = Permissions(canPublish: bool, canPublishData: bool)

  datatype VisibleControls = VisibleControls(leave: Field, camera: Field, chat: Field, microphone: Field, screenShare: Field)

  /** `target ??= fallback`: the fallback replaces an absent or undefined property. */
  function OrElse(target: Field, fallback: Field): Field {
    if IsNullish(target) then fallback else target
  }

  /**
   * The visibility rule: `leave` defaults to true; without permissions the
   * camera, chat, microphone and screen-share controls are hidden; with
   * them, each one the caller left unspecified follows `canPublish`, and an
   * unspecified chat follows `canPublishData && controls?.chat`, which reads
   * the (undefined) chat property again.
   */
  function VisibleControlsOf(controls: Controls, permissions: Js.Option<Permissions>): (v: VisibleControls)
    ensures v.leave == if controls.leave.Absent? then Value(true) else controls.leave
    ensures permissions.None? ==> v.camera == v.chat == v.microphone == v.screenShare == Value(false)
    ensures permissions.Some? && IsNullish(controls.camera) ==> v.camera == Value(permissions.value.canPublish)
    ensures permissions.Some? && IsNullish(controls.microphone) ==> v.microphone == Value(permissions.value.canPublish)
    ensures permissions.Some? && IsNullish(controls.screenShare) ==> v.screenShare == Value(permissions.value.canPublish)
    ensures IsNullish(controls.chat) ==> !IsTruthy(v.chat)
  {
    var leave := if controls.leave.Absent? then Value(true) else controls.leave;
    match permissions
    case None => VisibleControls(leave, Value(false), Value(false), Value(false), Value(false))
    case Some(p) =>
      VisibleControls(
        leave,
        OrElse(controls.camera, Value(p.canPublish)),
        OrElse(controls.chat, if p.canPublishData then Undefined else Value(false)),
        OrElse(controls.microphone, Value(p.canPublish)),
        OrElse(controls.screenShare, Value(p.canPublish)))
  }

  /**
   * `visibleControls`: the literal `{ leave: true, ...controls }` is built and
   * then updated property by property, as the component does.
   */
  method ComputeVisibleControls(controls: Controls, permissions: Js.Option<Permissions>) returns (v: VisibleControls)
    ensures v == VisibleControlsOf(controls, permissions)
  {
    // { leave: true, ...controls }
    var leave := if controls.leave.Absent? then Value(true) else controls.leave;
    var camera, chat, microphone, screenShare := controls.camera, controls.chat, controls.microphone, controls.screenShare;
    if permissions.None? {
      camera := Value(false);
      chat := Value(false);
      microphone := Value(false);
      screenShare := Value(false);
    } else {
      var canPublish := permissions.value.canPublish;
      if IsNullish(camera) { camera := Value(canPublish); }
      if IsNullish(microphone) { microphone := Value(canPublish); }
      if IsNullish(screenShare) { screenShare := Value(canPublish); }
      if IsNullish(chat) {
        // canPublishData && controls?.chat, where controls?.chat reads as undefined
        chat := if permissions.value.canPublishData then Undefined else Value(false);
      }
    }
    v := VisibleControls(leave, camera, chat, microphone, screenShare);
  }

  /** A control the caller specified keeps the caller's value whenever permissions are known. */
  lemma ExplicitChoicesKept(controls: Controls, p: Permissions)
    ensures var v := VisibleControlsOf(controls, Js.Some(p));
      && (!IsNullish(controls.camera) ==> v.camera == controls.camera)
      && (!IsNullish(controls.microphone) ==> v.microphone == controls.microphone)
      && (!IsNullish(controls.screenShare) ==> v.screenShare == controls.screenShare)
      && (!IsNullish(controls.chat) ==> v.chat == controls.chat)
  {
  }

  /** An unspecified chat control is never shown, whatever the permissions. */
  lemma UnspecifiedChatHidden(controls: Controls, permissions: Js.Option<Permissions>)
    requires IsNullish(controls.chat)
    ensures !IsTruthy(VisibleControlsOf(controls, permissions).chat)
  {
  }

  /** The media controls the bar renders. */
  datatype Rendered = Rendered(microphone: bool, camera: bool, screenShare: bool)

  /** The render guards: each control is shown when its visibility is truthy, screen share only where the browser supports it. */
  function RenderedControls(v: VisibleControls, browserSupportsScreenSharing: bool): (r: Rendered)
    ensures r.microphone <==> v.microphone == Value(true)
    ensures r.camera <==> v.camera == Value(true)
    ensures r.screenShare <==> v.screenShare == Value(true) && browserSupportsScreenSharing
  {
    Rendered(IsTruthy(v.microphone), IsTruthy(v.camera), IsTruthy(v.screenShare) && browserSupportsScreenSharing)
  }

  /** Without permissions no media control is rendered, whatever the caller asked for. */
  lemma NoPermissionsRendersNothing(controls: Controls, browserSupportsScreenSharing: bool)
    ensures RenderedControls(VisibleControlsOf(controls, Js.None), browserSupportsScreenSharing) == Rendered(false, false, false)
  {
  }

  /**
   * With the `controls` prop omitted, the microphone and camera are rendered
   * exactly when the participant may publish, and screen share when in
   * addition the browser supports it.
   */
  lemma DefaultsFollowPublishPermission(p: Permissions, browserSupportsScreenSharing: bool)
    ensures var omitted := Controls(Absent, Absent, Absent, Absent, Absent);
      RenderedControls(VisibleControlsOf(omitted, Js.Some(p)), browserSupportsScreenSharing)
        == Rendered(p.canPublish, p.canPublish, p.canPublish && browserSupportsScreenSharing)
  {
  }

  /** `leave` is shown unless the caller specified it. */
  lemma LeaveDefaultsToShown(controls: Controls, permissions: Js.Option<Permissions>)
    ensures controls.leave.Absent? ==> VisibleControlsOf(controls, permissions).leave == Value(true)
    ensures !controls.leave.Absent? ==> VisibleControlsOf(controls, permissions).leave == controls.leave
  {
  }
}
