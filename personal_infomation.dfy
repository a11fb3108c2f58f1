/**
 * The signed-in admin's profile page: the form loaded from the admin
 * record, the update body built from the form, the read-only/editable
 * switch, and the avatar upload and delete replies.
 */
module PersonalInfomation {
  import opened Json
  import AppSlice
  import Js

  /** The form's values, field by field. */
  type Form = map<string, Json>

  /** The form fields folded into `fullName` and `address`, and `email`, which is never sent. */
  const Folded: set<string> := {"email", "firstName", "lastName", "country", "province", "district", "ward", "detail"}

  /** `_.omit(data, keys)`. */
  function Omit(m: map<string, Json>, keys: set<string>): (r: map<string, Json>)
    ensures r.Keys == m.Keys - keys
    ensures forall k :: k in r ==> r[k] == m[k]
  {
    map k | k in m && k !in keys :: m[k]
  }

  /** `{firstName, lastName}` from the form. */
  function FullNameOf(form: Form): Json
  {
    Obj(map["firstName" := Get(Obj(form), "firstName"), "lastName" := Get(Obj(form), "lastName")])
  }

  /** `{country, province, district, ward, detail}` from the form. */
  function AddressOf(form: Form): Json
  {
    var f := Obj(form);
    Obj(map["country" := Get(f, "country"), "province" := Get(f, "province"), "district" := Get(f, "district"),
            "ward" := Get(f, "ward"), "detail" := Get(f, "detail")])
  }

  /** `memberInfo`: the admin's uid, the rebuilt `fullName` and `address`, then the other form fields. */
  function UpdateBody(admin: AppSlice.Admin, form: Form): map<string, Json>
  {
    map["uid" := Get(Obj(admin), "uid"), "fullName" := FullNameOf(form), "address" := AddressOf(form)]
      + Omit(form, Folded)
  }

  /**
   * The body carries the admin's uid, `fullName` and `address` rebuilt from
   * the form's parts (unless the form has fields of those names, which the
   * spread lets win), every other form field unchanged, and none of the
   * folded fields or `email` at the top level.
   */
  lemma UpdateBodySpec(admin: AppSlice.Admin, form: Form)
    ensures var r := UpdateBody(admin, form);
            r.Keys == {"uid", "fullName", "address"} + (form.Keys - Folded)
            && ("uid" !in form ==> r["uid"] == Get(Obj(admin), "uid"))
            && ("fullName" !in form ==>
                  Get(r["fullName"], "firstName") == Get(Obj(form), "firstName")
                  && Get(r["fullName"], "lastName") == Get(Obj(form), "lastName"))
            && ("address" !in form ==>
                  forall k :: k in {"country", "province", "district", "ward", "detail"} ==>
                    Get(r["address"], k) == Get(Obj(form), k))
            && (forall k :: k in Folded ==> k !in r)
            && (forall k :: k in form && k !in Folded ==> r[k] == form[k])
  {
  }

  /** `admin.dob ? dayjs(admin.dob) : null`; the date value itself stands for its parsed form. */
  function DateField(dob: Json): Json
  {
    if Truthy(dob) then dob else Null
  }

  /** The form loaded from the admin record. */
  function FormOf(admin: AppSlice.Admin): Form
  {
    var a := Obj(admin);
    var name := Get(a, "fullName");
    var addr := Get(a, "address");
    map["firstName" := Get(name, "firstName"), "lastName" := Get(name, "lastName"), "email" := Get(a, "email"),
        "dob" := DateField(Get(a, "dob")), "gender" := Get(a, "gender"),
        "country" := Get(addr, "country"), "province" := Get(addr, "province"), "ward" := Get(addr, "ward"),
        "district" := Get(addr, "district"), "detail" := Get(addr, "detail"), "tel" := Get(a, "tel")]
  }

  /** An admin record whose `fullName` and `address` objects hold exactly the typed keys. */
  predicate WellShaped(admin: AppSlice.Admin)
  {
    "fullName" in admin && admin["fullName"].Obj? && admin["fullName"].fields.Keys == {"firstName", "lastName"}
    && "address" in admin && admin["address"].Obj?
    && admin["address"].fields.Keys == {"country", "province", "district", "ward", "detail"}
  }

  /**
   * Saving the loaded form without edits sends the admin's own uid,
   * `fullName`, `address`, gender and telephone, and no email.
   */
  lemma UnchangedFormRoundTrip(admin: AppSlice.Admin)
    requires WellShaped(admin)
    ensures var r := UpdateBody(admin, FormOf(admin));
            r["fullName"] == admin["fullName"] && r["address"] == admin["address"]
            && r["uid"] == Get(Obj(admin), "uid")
            && r["gender"] == Get(Obj(admin), "gender") && r["tel"] == Get(Obj(admin), "tel")
            && "email" !in r
  {
    var form := FormOf(admin);
    FullNameRoundTrip(admin, form);
    AddressRoundTrip(admin, form);
    var rest := Omit(form, Folded);
    assert "gender" in form && "gender" !in Folded && rest["gender"] == form["gender"];
    assert "tel" in form && "tel" !in Folded && rest["tel"] == form["tel"];
    assert "email" !in rest;
    assert "uid" !in rest && "fullName" !in rest && "address" !in rest;
  }

  /** The name fields loaded from a well-shaped record rebuild its `fullName`. */
  lemma FullNameRoundTrip(admin: AppSlice.Admin, form: Form)
    requires WellShaped(admin) && form == FormOf(admin)
    ensures FullNameOf(form) == admin["fullName"]
  {
    var name := admin["fullName"].fields;
    var built := FullNameOf(form).fields;
    assert built.Keys == name.Keys;
    assert built["firstName"] == name["firstName"];
    assert built["lastName"] == name["lastName"];
    assert built == name;
  }

  /** The address fields loaded from a well-shaped record rebuild its `address`. */
  lemma AddressRoundTrip(admin: AppSlice.Admin, form: Form)
    requires WellShaped(admin) && form == FormOf(admin)
    ensures AddressOf(form) == admin["address"]
  {
    var addr := admin["address"].fields;
    var built := AddressOf(form).fields;
    assert built.Keys == addr.Keys;
    forall k | k in addr ensures built[k] == addr[k] {
      assert Get(Obj(form), k) == form[k];
    }
    assert built == addr;
  }

  /** `{avatar: null, avatarId: null}`. */
  const AvatarCleared: AppSlice.Admin := map["avatar" := Null, "avatarId" := Null]

  /** The actions a save dispatches: loader on, on success the new info and its message, loader off. */
  function SaveActions(status: int, info: AppSlice.Admin, reply: Json): seq<AppSlice.Action>
  {
    [AppSlice.LoadingFullScreen(Js.Some(true))]
    + (if status < 400 then [AppSlice.UpdateAccountInfo(info), AppSlice.CallMessage(AppSlice.Message(AppSlice.Success, Get(reply, "message")))] else [])
    + [AppSlice.LoadingFullScreen(Js.Some(false))]
  }

  /** After a save the loader is off; the admin record takes the returned info only on success. */
  lemma SaveActionsSpec(s: AppSlice.AppState, status: int, info: AppSlice.Admin, reply: Json)
    ensures var t := AppSlice.ReduceAll(s, SaveActions(status, info, reply));
            !t.loadingFullScreen
            && (status < 400 ==> t.admin == Js.Some(AppSlice.Merge(s.admin, info))
                                 && t.message == Js.Some(AppSlice.Message(AppSlice.Success, Get(reply, "message"))))
            && (status >= 400 ==> t == s.(loadingFullScreen := false))
  {
    var on := [AppSlice.LoadingFullScreen(Js.Some(true))];
    var off := [AppSlice.LoadingFullScreen(Js.Some(false))];
    var mid: seq<AppSlice.Action> :=
      if status < 400 then [AppSlice.UpdateAccountInfo(info), AppSlice.CallMessage(AppSlice.Message(AppSlice.Success, Get(reply, "message")))] else [];
    assert SaveActions(status, info, reply) == on + mid + off;
    AppSlice.ReduceAllAppend(s, on + mid, off);
    AppSlice.ReduceAllAppend(s, on, mid);
    var s1 := AppSlice.ReduceAll(s, on);
    assert s1 == AppSlice.Reduce(s, on[0]);
    if status < 400 {
      assert AppSlice.ReduceAll(s1, mid) == AppSlice.ReduceAll(AppSlice.Reduce(s1, mid[0]), mid[1..]);
      assert AppSlice.ReduceAll(AppSlice.Reduce(s1, mid[0]), mid[1..])
          == AppSlice.ReduceAll(AppSlice.Reduce(AppSlice.Reduce(s1, mid[0]), mid[1]), mid[2..]);
    }
    var s2 := AppSlice.ReduceAll(s1, mid);
    assert AppSlice.ReduceAll(s2, off) == AppSlice.Reduce(s2, off[0]);
  }

  /** The page's own state: whether the form is editable. */
  class ProfilePage {
    var editable: bool

    constructor ()
      ensures !editable
    {
      editable := false;
    }

    /** The edit and cancel buttons. */
    method ToggleEditable()
      modifies this
      ensures editable == !old(editable)
    {
      editable := !editable;
    }

    /**
     * `handleUpdateAccInfo`: nothing happens when the form does not
     * validate; otherwise the form turns read-only before the request goes
     * out and the reply is applied between the loader's on and off.
     */
    method HandleUpdateAccInfo(app: AppSlice.AppStore, form: Form, valid: bool, status: int, info: AppSlice.Admin, reply: Json)
      returns (body: Js.Option<map<string, Json>>)
      requires app.admin.Some?
      modifies this, app
      ensures !valid ==> body.None? && editable == old(editable) && app.State() == old(app.State())
      ensures valid ==> body == Js.Some(UpdateBody(old(app.admin.value), form)) && !editable
      ensures valid ==> app.State() == AppSlice.ReduceAll(old(app.State()), SaveActions(status, info, reply))
    {
      if !valid {
        return Js.None;
      }
      ghost var s0 := app.State();
      app.Dispatch(AppSlice.LoadingFullScreen(Js.Some(true)));
      editable := false;
      body := Js.Some(UpdateBody(app.admin.value, form));
      ghost var mid: seq<AppSlice.Action> := [];
      if status < 400 {
        app.Dispatch(AppSlice.UpdateAccountInfo(info));
        app.Dispatch(AppSlice.CallMessage(AppSlice.Message(AppSlice.Success, Get(reply, "message"))));
        mid := [AppSlice.UpdateAccountInfo(info), AppSlice.CallMessage(AppSlice.Message(AppSlice.Success, Get(reply, "message")))];
      }
      ghost var s2 := app.State();
      app.Dispatch(AppSlice.LoadingFullScreen(Js.Some(false)));
      ghost var on := [AppSlice.LoadingFullScreen(Js.Some(true))];
      ghost var off := [AppSlice.LoadingFullScreen(Js.Some(false))];
      assert SaveActions(status, info, reply) == on + mid + off;
      AppSlice.ReduceAllAppend(s0, on + mid, off);
      AppSlice.ReduceAllAppend(s0, on, mid);
      ghost var s1 := AppSlice.ReduceAll(s0, on);
      assert s1 == AppSlice.Reduce(s0, on[0]);
      if status < 400 {
        assert AppSlice.ReduceAll(s1, mid) == AppSlice.ReduceAll(AppSlice.Reduce(s1, mid[0]), mid[1..]);
        assert AppSlice.ReduceAll(AppSlice.Reduce(s1, mid[0]), mid[1..])
            == AppSlice.ReduceAll(AppSlice.Reduce(AppSlice.Reduce(s1, mid[0]), mid[1]), mid[2..]);
      }
      assert s2 == AppSlice.ReduceAll(s1, mid);
      assert AppSlice.ReduceAll(s2, off) == AppSlice.Reduce(s2, off[0]);
    }

    /** `handleUploadAvatar`: on success the returned record is merged in and its message shown. */
    method HandleUploadAvatar(app: AppSlice.AppStore, status: int, data: AppSlice.Admin, reply: Json)
      modifies app
      ensures status >= 400 ==> app.State() == old(app.State())
      ensures status < 400 ==>
                app.State() == AppSlice.ReduceAll(old(app.State()),
                  [AppSlice.UpdateAccountInfo(data), AppSlice.CallMessage(AppSlice.Message(AppSlice.Success, Get(reply, "message")))])
    {
      if status < 400 {
        ghost var s0 := app.State();
        var acts := [AppSlice.UpdateAccountInfo(data), AppSlice.CallMessage(AppSlice.Message(AppSlice.Success, Get(reply, "message")))];
        app.Dispatch(acts[0]);
        app.Dispatch(acts[1]);
        assert AppSlice.ReduceAll(s0, acts) == AppSlice.ReduceAll(AppSlice.Reduce(s0, acts[0]), acts[1..]);
        assert AppSlice.ReduceAll(AppSlice.Reduce(s0, acts[0]), acts[1..])
            == AppSlice.ReduceAll(AppSlice.Reduce(AppSlice.Reduce(s0, acts[0]), acts[1]), acts[2..]);
      }
    }

    /**
     * `handleDeleteAvatar`: without an `avatarId` nothing is sent and
     * nothing changes; otherwise, on success, the avatar and its id become
     * `null` and the reply's message is shown.
     */
    method HandleDeleteAvatar(app: AppSlice.AppStore, status: int, reply: Json) returns (sent: bool)
      requires app.admin.Some?
      modifies app
      ensures sent == Truthy(Get(Obj(old(app.admin.value)), "avatarId"))
      ensures !(sent && status < 400) ==> app.State() == old(app.State())
      ensures sent && status < 400 ==>
                app.State() == AppSlice.ReduceAll(old(app.State()),
                  [AppSlice.UpdateAccountInfo(AvatarCleared), AppSlice.CallMessage(AppSlice.Message(AppSlice.Success, Get(reply, "message")))])
    {
      sent := Truthy(Get(Obj(app.admin.value), "avatarId"));
      if !sent {
        return;
      }
      if status < 400 {
        ghost var s0 := app.State();
        var acts := [AppSlice.UpdateAccountInfo(AvatarCleared), AppSlice.CallMessage(AppSlice.Message(AppSlice.Success, Get(reply, "message")))];
        app.Dispatch(acts[0]);
        app.Dispatch(acts[1]);
        assert AppSlice.ReduceAll(s0, acts) == AppSlice.ReduceAll(AppSlice.Reduce(s0, acts[0]), acts[1..]);
        assert AppSlice.ReduceAll(AppSlice.Reduce(s0, acts[0]), acts[1..])
            == AppSlice.ReduceAll(AppSlice.Reduce(AppSlice.Reduce(s0, acts[0]), acts[1]), acts[2..]);
      }
    }
  }

  /** After a successful avatar delete the admin record has `null` avatar fields and keeps every other key. */
  lemma AvatarDeleteClears(s: AppSlice.AppState, reply: Json, k: string)
    requires s.admin.Some?
    ensures var t := AppSlice.ReduceAll(s,
                [AppSlice.UpdateAccountInfo(AvatarCleared), AppSlice.CallMessage(AppSlice.Message(AppSlice.Success, Get(reply, "message")))]);
            t.admin.Some? && "avatar" in t.admin.value && "avatarId" in t.admin.value
            && t.admin.value["avatar"] == Null && t.admin.value["avatarId"] == Null
            && !Truthy(Get(Obj(t.admin.value), "avatarId"))
            && (k in s.admin.value && k !in AvatarCleared ==> k in t.admin.value && t.admin.value[k] == s.admin.value[k])
  {
    var acts := [AppSlice.UpdateAccountInfo(AvatarCleared), AppSlice.CallMessage(AppSlice.Message(AppSlice.Success, Get(reply, "message")))];
    assert AppSlice.ReduceAll(s, acts) == AppSlice.ReduceAll(AppSlice.Reduce(s, acts[0]), acts[1..]);
    assert AppSlice.ReduceAll(AppSlice.Reduce(s, acts[0]), acts[1..])
        == AppSlice.ReduceAll(AppSlice.Reduce(AppSlice.Reduce(s, acts[0]), acts[1]), acts[2..]);
  }
}
