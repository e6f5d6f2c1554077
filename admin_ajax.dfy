/** The admin ajax endpoint of admin/admin_ajax.php: one request names an action in `$_GET`
    and acts on one user record, and on the texture files for `deleteTexture`. */
module AdminAjax {
  import opened Values

  /** The `action` query parameter, as the if/else-if chain tells the cases apart. */
  datatype Action = Upload | Change | DeleteAccount | DeleteTexture | Model | Unknown(name: string)

  function ActionName(a: Action): string
  {
    match a
    case Upload => "upload"
    case Change => "change"
    case DeleteAccount => "deleteAccount"
    case DeleteTexture => "deleteTexture"
    case Model => "model"
    case Unknown(name) => name
  }

  /** Which branch of the chain a given action string takes. */
  function ParseAction(s: string): (a: Action)
    ensures ActionName(a) == s
    ensures a.Unknown? <==> s != "upload" && s != "change" && s != "deleteAccount" && s != "deleteTexture" && s != "model"
  {
    if s == "upload" then Upload
    else if s == "change" then Change
    else if s == "deleteAccount" then DeleteAccount
    else if s == "deleteTexture" then DeleteTexture
    else if s == "model" then Model
    else Unknown(s)
  }

  /** Every action is told apart by its name: parsing the name gives the action back. */
  lemma ParseActionName(a: Action)
    requires a.Unknown? ==> ParseAction(a.name).Unknown?
    ensures ParseAction(ActionName(a)) == a
  {
  }

  /** The three texture slots `deleteTexture` visits. */
  datatype Slot = Steve | Alex | Cape

  /** The POST field and the `hash_<slot>` column suffix of a slot. */
  function SlotName(slot: Slot): string
  {
    match slot
    case Steve => "steve"
    case Alex => "alex"
    case Cape => "cape"
  }

  /** The `switch ($i)` in the loop of `deleteTexture`: pass 1, 2, 3 visits steve, alex, cape. */
  function SlotAt(i: int): (slot: Slot)
    requires 1 <= i <= 3
    ensures slot == AllSlots[i - 1]
  {
    if i == 1 then Steve else if i == 2 then Alex else Cape
  }

  /** The slots in the order `deleteTexture` visits them. */
  const AllSlots: seq<Slot> := [Steve, Alex, Cape]

  /** The body of the JSON reply: `$json` when it was filled, with the error code and the
      message, or `null` when no branch filled it. */
  datatype Reply = Json(errno: int, msg: string) | NoReply

  /** What `User::checkValidPwd` did with the posted password: accepted it, returned false,
      or raised an error that ends the request with its own reply. */
  datatype PasswordCheck = Accepted | Refused | Raised(errno: int, msg: string)

  /** A request: `$_GET`, `$_POST` and the uploaded file `$_FILES['file']`, if any. */
  datatype Request = Request(query: map<string, string>, post: map<string, string>, file: Option<string>)

  /** A query or post value spliced into a message: PHP turns null into the empty string. */
  function Text(v: Value): string
  {
    if v.Str? then v.s else ""
  }

  /** The stored texture hash of a slot, "" when the slot is empty. */
  function TextureOf(hashes: map<Slot, string>, slot: Slot): string
  {
    if slot in hashes then hashes[slot] else ""
  }

  /** The user record behind `User`: the fields the endpoint changes. */
  class Account {
    const uname: string
    var password: Value
    var registered: bool
    var preference: string
    var hashes: map<Slot, string>
    /** The uploads `setTexture` accepted, as texture type and file. */
    var uploads: seq<(string, string)>

    constructor (uname: string, password: Value, preference: string, hashes: map<Slot, string>)
      ensures this.uname == uname && this.password == password && this.preference == preference
      ensures this.hashes == hashes && registered && uploads == []
    {
      this.uname := uname;
      this.password := password;
      this.preference := preference;
      this.hashes := hashes;
      registered := true;
      uploads := [];
    }

    /** `getTexture($type)`. */
    function Texture(slot: Slot): string
      reads this`hashes
    {
      TextureOf(hashes, slot)
    }

    /** `setTexture($type, $file)`; whether the upload is accepted is decided by code that
        is not part of this model and comes in as `accepted`. */
    method SetTexture(kind: string, file: string, accepted: bool) returns (ok: bool)
      modifies this`uploads
      ensures ok == accepted
      ensures uploads == old(uploads) + (if accepted then [(kind, file)] else [])
    {
      ok := accepted;
      if accepted {
        uploads := uploads + [(kind, file)];
      }
    }

    /** `changePasswd($passwd)`. */
    method ChangePasswd(password: Value)
      modifies this`password
      ensures this.password == password
    {
      this.password := password;
    }

    /** `unRegister()`. */
    method UnRegister()
      modifies this`registered
      ensures !registered
    {
      registered := false;
    }

    /** `db->update($uname, 'hash_<slot>', '')`. */
    method ClearTexture(slot: Slot)
      modifies this`hashes
      ensures hashes == old(hashes)[slot := ""]
      ensures Texture(slot) == ""
    {
      hashes := hashes[slot := ""];
    }

    /** `setPreference($model)`. */
    method SetPreference(model: string)
      modifies this`preference
      ensures preference == model
    {
      preference := model;
    }
  }

  /** The path `Utils::remove` is given for a texture hash. */
  function TexturePath(hash: string): string
  {
    "./textures/" + hash
  }

  /** The texture files on disk, and the removals made, in order. */
  class TextureDir {
    var files: set<string>
    var removed: seq<string>

    constructor (files: set<string>)
      ensures this.files == files && removed == []
    {
      this.files := files;
      removed := [];
    }

    /** `Utils::remove($path)`. */
    method Remove(path: string)
      modifies this
      ensures files == old(files) - {path}
      ensures removed == old(removed) + [path]
    {
      files := files - {path};
      removed := removed + [path];
    }
  }

  /** The user's textures and the files, as values. */
  datatype Textures = Textures(hashes: map<Slot, string>, files: set<string>, removed: seq<string>)

  /** A slot `deleteTexture` clears: its POST flag is "true" and it holds a texture. */
  predicate Doomed(post: map<string, string>, hashes: map<Slot, string>, slot: Slot)
  {
    Lookup(post, SlotName(slot)) == Str("true") && TextureOf(hashes, slot) != ""
  }

  /** One pass of the loop of `deleteTexture`. */
  function DeleteSlot(post: map<string, string>, t: Textures, slot: Slot): Textures
  {
    if Doomed(post, t.hashes, slot) then
      var path := TexturePath(TextureOf(t.hashes, slot));
      Textures(t.hashes[slot := ""], t.files - {path}, t.removed + [path])
    else t
  }

  /** The passes of the loop over `slots`, in order. */
  function DeleteSlots(post: map<string, string>, t: Textures, slots: seq<Slot>): Textures
    decreases |slots|
  {
    if slots == [] then t else DeleteSlot(post, DeleteSlots(post, t, slots[..|slots| - 1]), slots[|slots| - 1])
  }

  /** The slots among `slots` that are cleared, in order. */
  function DoomedIn(post: map<string, string>, hashes: map<Slot, string>, slots: seq<Slot>): (doomed: seq<Slot>)
    ensures forall slot :: slot in doomed <==> slot in slots && Doomed(post, hashes, slot)
    decreases |slots|
  {
    if slots == [] then []
    else
      var front := DoomedIn(post, hashes, slots[..|slots| - 1]);
      var last := slots[|slots| - 1];
      assert forall slot :: slot in slots <==> slot in slots[..|slots| - 1] || slot == last;
      if Doomed(post, hashes, last) then front + [last] else front
  }

  /** The paths of the textures of `slots`, in order. */
  function PathsOf(hashes: map<Slot, string>, slots: seq<Slot>): seq<string>
  {
    seq(|slots|, i requires 0 <= i < |slots| => TexturePath(TextureOf(hashes, slots[i])))
  }

  /** The loop over distinct `slots` empties exactly the slots among them that are
      flagged "true" and hold a texture; every other slot keeps its texture. */
  lemma {:induction false} DeleteSlotsHashes(post: map<string, string>, t: Textures, slots: seq<Slot>)
    requires forall i, j :: 0 <= i < j < |slots| ==> slots[i] != slots[j]
    ensures forall slot ::
              TextureOf(DeleteSlots(post, t, slots).hashes, slot) ==
              (if slot in slots && Doomed(post, t.hashes, slot) then "" else TextureOf(t.hashes, slot))
    decreases |slots|
  {
    if slots != [] {
      var front := slots[..|slots| - 1];
      DeleteSlotsHashes(post, t, front);
      assert forall slot :: slot in slots <==> slot in front || slot == slots[|slots| - 1];
    }
  }

  /** The loop over distinct `slots` removes the files of the slots it empties, in the
      order of `slots`. */
  lemma {:induction false} DeleteSlotsRemoved(post: map<string, string>, t: Textures, slots: seq<Slot>)
    requires forall i, j :: 0 <= i < j < |slots| ==> slots[i] != slots[j]
    ensures DeleteSlots(post, t, slots).removed == t.removed + PathsOf(t.hashes, DoomedIn(post, t.hashes, slots))
    decreases |slots|
  {
    if slots != [] {
      var front := slots[..|slots| - 1];
      var last := slots[|slots| - 1];
      DeleteSlotsRemoved(post, t, front);
      DeleteSlotsHashes(post, t, front);
      assert last !in front;
      var d0 := DoomedIn(post, t.hashes, front);
      if Doomed(post, t.hashes, last) {
        assert PathsOf(t.hashes, d0 + [last]) == PathsOf(t.hashes, d0) + [TexturePath(TextureOf(t.hashes, last))];
      }
    }
  }

  /** The paths of the textures the loop over `slots` removes. */
  function RemovedPaths(post: map<string, string>, hashes: map<Slot, string>, slots: seq<Slot>): set<string>
  {
    set slot | slot in slots && Doomed(post, hashes, slot) :: TexturePath(TextureOf(hashes, slot))
  }

  /** The loop over distinct `slots` leaves every file but those of the slots it empties. */
  lemma {:induction false} DeleteSlotsFiles(post: map<string, string>, t: Textures, slots: seq<Slot>)
    requires forall i, j :: 0 <= i < j < |slots| ==> slots[i] != slots[j]
    ensures DeleteSlots(post, t, slots).files == t.files - RemovedPaths(post, t.hashes, slots)
    decreases |slots|
  {
    if slots != [] {
      var front := slots[..|slots| - 1];
      var last := slots[|slots| - 1];
      DeleteSlotsFiles(post, t, front);
      DeleteSlotsHashes(post, t, front);
      assert last !in front;
      assert forall slot :: slot in slots <==> slot in front || slot == last;
      if Doomed(post, t.hashes, last) {
        assert RemovedPaths(post, t.hashes, slots) ==
          RemovedPaths(post, t.hashes, front) + {TexturePath(TextureOf(t.hashes, last))};
      } else {
        assert RemovedPaths(post, t.hashes, slots) == RemovedPaths(post, t.hashes, front);
      }
    }
  }

  /** `deleteTexture` on the three slots: the steve, alex and cape textures flagged in POST
      are emptied and their files removed, in that order; nothing else changes. */
  lemma DeleteTexturesEffect(post: map<string, string>, t: Textures)
    ensures var r := DeleteSlots(post, t, AllSlots);
      (forall slot :: TextureOf(r.hashes, slot) == if Doomed(post, t.hashes, slot) then "" else TextureOf(t.hashes, slot)) &&
      r.removed == t.removed + PathsOf(t.hashes, DoomedIn(post, t.hashes, AllSlots)) &&
      r.files == t.files - RemovedPaths(post, t.hashes, AllSlots)
  {
    DeleteSlotsHashes(post, t, AllSlots);
    DeleteSlotsRemoved(post, t, AllSlots);
    DeleteSlotsFiles(post, t, AllSlots);
    forall slot: Slot ensures slot in AllSlots {
      var i := if slot == Steve then 0 else if slot == Alex then 1 else 2;
      assert AllSlots[i] == slot;
    }
  }

  /** The loop of `deleteTexture`: `for ($i = 1; $i <= 3; $i++)` over the slots. */
  method DeleteTextures(post: map<string, string>, account: Account, dir: TextureDir)
    modifies account`hashes, dir
    ensures Textures(account.hashes, dir.files, dir.removed) ==
      DeleteSlots(post, Textures(old(account.hashes), old(dir.files), old(dir.removed)), AllSlots)
  {
    ghost var t0 := Textures(account.hashes, dir.files, dir.removed);
    for i := 1 to 4
      invariant Textures(account.hashes, dir.files, dir.removed) == DeleteSlots(post, t0, AllSlots[..i - 1])
    {
      var slot := SlotAt(i);
      assert AllSlots[..i][..i - 1] == AllSlots[..i - 1];
      if Lookup(post, SlotName(slot)) == Str("true") && account.Texture(slot) != "" {
        dir.Remove(TexturePath(account.Texture(slot)));
        account.ClearTexture(slot);
      }
    }
    assert AllSlots[..3] == AllSlots;
  }

  /** `isset($_POST['model']) && $_POST['model'] == 'slim' || $_POST['model'] == 'default'`:
      by precedence, the posted model is accepted exactly when it is "slim" or "default". */
  function ModelAccepted(post: map<string, string>): (ok: bool)
    ensures ok <==> "model" in post && (post["model"] == "slim" || post["model"] == "default")
  {
    ("model" in post && Lookup(post, "model") == Str("slim")) || Lookup(post, "model") == Str("default")
  }

  /** The one change a request makes to the user record or the files. */
  datatype Effect =
    | NoEffect
    | Uploaded(kind: string, file: string)
    | PasswordChanged(password: Value)
    | Unregistered
    | TexturesDeleted
    | PreferenceSet(model: string)

  /** The action of a request, if it names one. */
  function RequestAction(req: Request): Option<Action>
  {
    if "action" in req.query then Some(ParseAction(req.query["action"])) else None
  }

  /** The texture type of an upload: `type` from the query, "skin" when absent. */
  function UploadKind(req: Request): string
  {
    if "type" in req.query then req.query["type"] else "skin"
  }

  /** What a request changes, given what `setTexture` and `checkValidPwd` decide. */
  function EffectOf(req: Request, accepted: bool, check: PasswordCheck): Effect
  {
    match RequestAction(req)
    case None => NoEffect
    case Some(action) =>
      match action
      case Upload => if req.file.Some? && accepted then Uploaded(UploadKind(req), req.file.value) else NoEffect
      case Change => if check.Accepted? then PasswordChanged(Lookup(req.post, "passwd")) else NoEffect
      case DeleteAccount => Unregistered
      case DeleteTexture => TexturesDeleted
      case Model => if ModelAccepted(req.post) then PreferenceSet(req.post["model"]) else NoEffect
      case Unknown(_) => NoEffect
  }

  /** The reply of a request, given what `setTexture` and `checkValidPwd` decide; an error
      raised through `Utils::raise` ends the request with its own reply. */
  function ReplyOf(req: Request, accepted: bool, check: PasswordCheck): Reply
  {
    var uname := Text(Lookup(req.query, "uname"));
    match RequestAction(req)
    case None => NoReply
    case Some(action) =>
      match action
      case Upload =>
        if req.file.None? then Json(1, "你没有选择任何文件哦")
        else if accepted then Json(0, "皮肤上传成功。")
        else Json(1, "出现了奇怪的错误。。请联系作者")
      case Change =>
        (match check
         case Accepted => Json(0, "成功更改了 " + uname + " 的密码。")
         case Refused => NoReply
         case Raised(errno, msg) => Json(errno, msg))
      case DeleteAccount => Json(0, "成功删除了该用户。")
      case DeleteTexture => Json(0, "成功地删除了该用户的所选材质。")
      case Model =>
        if ModelAccepted(req.post) then Json(0, "成功地将用户 " + uname + " 的优先皮肤模型更改为 " + req.post["model"] + " 。")
        else Json(1, "非法参数。")
      case Unknown(_) => Json(1, "非法参数。")
  }

  /** A request succeeds, with error code 0, exactly when its branch reaches its success
      path, that is when `EffectOf` names a change (which may leave the state as it was:
      a `deleteTexture` with nothing flagged); a raised password error is taken to carry
      a nonzero code. */
  lemma SuccessIffEffect(req: Request, accepted: bool, check: PasswordCheck)
    requires check.Raised? ==> check.errno != 0
    ensures (ReplyOf(req, accepted, check).Json? && ReplyOf(req, accepted, check).errno == 0) <==>
      EffectOf(req, accepted, check) != NoEffect
  {
  }

  /** `upload`: without a file the request is refused; with one, the texture type is `type`
      from the query, or "skin" when absent, and the reply says whether `setTexture`
      accepted the file. */
  lemma UploadOutcome(req: Request, accepted: bool, check: PasswordCheck)
    requires "action" in req.query && req.query["action"] == "upload"
    ensures req.file.None? ==>
      ReplyOf(req, accepted, check) == Json(1, "你没有选择任何文件哦") && EffectOf(req, accepted, check) == NoEffect
    ensures req.file.Some? && accepted ==>
      ReplyOf(req, accepted, check) == Json(0, "皮肤上传成功。") &&
      EffectOf(req, accepted, check) ==
        Uploaded(if "type" in req.query then req.query["type"] else "skin", req.file.value)
    ensures req.file.Some? && !accepted ==>
      ReplyOf(req, accepted, check) == Json(1, "出现了奇怪的错误。。请联系作者") && EffectOf(req, accepted, check) == NoEffect
  {
  }

  /** `change`: an accepted password is stored and the reply names the user, with "" in
      place of a missing `uname`; a refused one gets no reply, and a raised error its own
      reply; neither changes anything. */
  lemma ChangeOutcome(req: Request, accepted: bool, check: PasswordCheck)
    requires "action" in req.query && req.query["action"] == "change"
    ensures check.Accepted? ==>
      EffectOf(req, accepted, check) == PasswordChanged(Lookup(req.post, "passwd")) &&
      ReplyOf(req, accepted, check) ==
        Json(0, "成功更改了 " + (if "uname" in req.query then req.query["uname"] else "") + " 的密码。")
    ensures check.Refused? ==> ReplyOf(req, accepted, check) == NoReply && EffectOf(req, accepted, check) == NoEffect
    ensures check.Raised? ==>
      ReplyOf(req, accepted, check) == Json(check.errno, check.msg) && EffectOf(req, accepted, check) == NoEffect
  {
  }

  /** `model`: the posted model becomes the preference exactly when it is "slim" or
      "default", and the reply names the user and the model; any other value, or none, is
      refused. */
  lemma ModelOutcome(req: Request, accepted: bool, check: PasswordCheck)
    requires "action" in req.query && req.query["action"] == "model"
    ensures "model" in req.post && (req.post["model"] == "slim" || req.post["model"] == "default") ==>
      EffectOf(req, accepted, check) == PreferenceSet(req.post["model"]) &&
      ReplyOf(req, accepted, check) ==
        Json(0, "成功地将用户 " + (if "uname" in req.query then req.query["uname"] else "") +
                " 的优先皮肤模型更改为 " + req.post["model"] + " 。")
    ensures !("model" in req.post && (req.post["model"] == "slim" || req.post["model"] == "default")) ==>
      ReplyOf(req, accepted, check) == Json(1, "非法参数。") && EffectOf(req, accepted, check) == NoEffect
  {
  }

  /** A request without an `action` gets no reply and changes nothing. */
  lemma NoActionNoReply(req: Request, accepted: bool, check: PasswordCheck)
    requires "action" !in req.query
    ensures ReplyOf(req, accepted, check) == NoReply && EffectOf(req, accepted, check) == NoEffect
  {
  }

  /** An action string other than the five known ones is refused with error 1 and the
      message "非法参数。", and changes nothing. */
  lemma UnknownActionRefused(req: Request, accepted: bool, check: PasswordCheck)
    requires "action" in req.query
    requires var a := req.query["action"];
      a != "upload" && a != "change" && a != "deleteAccount" && a != "deleteTexture" && a != "model"
    ensures ReplyOf(req, accepted, check) == Json(1, "非法参数。")
    ensures EffectOf(req, accepted, check) == NoEffect
  {
  }

  /** The request handler: the if/else-if chain over `action`. `accepted` is what
      `setTexture` answers for an upload and `check` what `checkValidPwd` does with the
      posted password. Exactly the change `EffectOf` names is made to the account or the
      files, and nothing else. */
  method Dispatch(req: Request, account: Account, dir: TextureDir, accepted: bool, check: PasswordCheck)
    returns (reply: Reply)
    modifies account, dir
    ensures reply == ReplyOf(req, accepted, check)
    ensures var e := EffectOf(req, accepted, check);
      account.uploads == old(account.uploads) + (if e.Uploaded? then [(e.kind, e.file)] else []) &&
      account.password == (if e.PasswordChanged? then e.password else old(account.password)) &&
      account.registered == (old(account.registered) && !e.Unregistered?) &&
      account.preference == (if e.PreferenceSet? then e.model else old(account.preference)) &&
      Textures(account.hashes, dir.files, dir.removed) ==
        (var t := Textures(old(account.hashes), old(dir.files), old(dir.removed));
         if e.TexturesDeleted? then DeleteSlots(req.post, t, AllSlots) else t)
  {
    reply := NoReply;
    if "action" in req.query {
      var action := req.query["action"];
      var uname := Text(Lookup(req.query, "uname"));
      if action == "upload" {
        var kind := if "type" in req.query then req.query["type"] else "skin";
        if req.file.Some? {
          var ok := account.SetTexture(kind, req.file.value, accepted);
          if ok {
            reply := Json(0, "皮肤上传成功。");
          } else {
            reply := Json(1, "出现了奇怪的错误。。请联系作者");
          }
        } else {
          reply := Json(1, "你没有选择任何文件哦");
        }
      } else if action == "change" {
        match check
        case Accepted =>
          account.ChangePasswd(Lookup(req.post, "passwd"));
          reply := Json(0, "成功更改了 " + uname + " 的密码。");
        case Refused =>
        case Raised(errno, msg) =>
          reply := Json(errno, msg);
      } else if action == "deleteAccount" {
        account.UnRegister();
        reply := Json(0, "成功删除了该用户。");
      } else if action == "deleteTexture" {
        DeleteTextures(req.post, account, dir);
        reply := Json(0, "成功地删除了该用户的所选材质。");
      } else if action == "model" {
        if ModelAccepted(req.post) {
          account.SetPreference(req.post["model"]);
          reply := Json(0, "成功地将用户 " + uname + " 的优先皮肤模型更改为 " + req.post["model"] + " 。");
        } else {
          reply := Json(1, "非法参数。");
        }
      } else {
        reply := Json(1, "非法参数。");
      }
    }
  }
}
