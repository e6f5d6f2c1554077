# Option forms and the admin ajax endpoint of Blessing Skin Server

A Dafny model of two parts of the PHP skin server:

- **The option-form builder** (`app/Services/OptionForm.php`). An `OptionForm` holds an ordered list of
  `OptionFormItem`s: text inputs, checkboxes, and selects, textareas and groups. The last three keep a
  nested builder object under the item's `view` key.
  - `handle()` writes a submitted form into the global option store.
  - `render()` resolves the value each item displays and sets every item's content.

  The model is imperative, as the PHP is:
  - `OptionForm`, `OptionFormItem`, `OptionFormSelect`, `OptionFormTextarea` and `OptionFormGroup` are
    classes whose methods update their fields;
  - the option store, `$_POST` and the session flash data are objects (`OptionStore`, `PostData`,
    `Session`) that `Handle` updates.

  Each loop is specified by a pure function over the values it works on:
  - `HandlePass` for the loop of `handle`;
  - `Outcomes` and `Carried` for the loop of `render`.

  The properties of those functions are proved as lemmas.
- **The admin ajax endpoint** (`admin/admin_ajax.php`). It is a closed dispatch over the `action` query
  parameter (`upload`, `change`, `deleteAccount`, `deleteTexture`, `model`, anything else). The actions act on
  one user record (`Account`) and on the texture files (`TextureDir`), and they fill the JSON reply. The
  loop of `deleteTexture` over the steve, alex and cape slots is a `for` loop, specified by `DeleteSlots`.

Module layout:

| file | module | contents |
|---|---|---|
| `values.dfy` | `Values` | null-or-string values, lookups with PHP's missing key reads as null, truthiness |
| `option_ids.dfy` | `OptionIds` | the two readings of a namespaced id `key[sub]` |
| `option_form.dfy` | `OptionForms` | the option-form classes, the `handle` and `render` models and their lemmas |
| `admin_ajax.dfy` | `AdminAjax` | the endpoint |

Behaviour of the code that the model keeps, even where it looks accidental:

- A namespaced id is read in two ways:
  - `handle` skips an id that matches `Str::is('*[*]')`, which means it must end with `]`;
  - `render` splits any id that the unanchored, greedy `/(.*)\[(.*)\]/` matches.

  So `a[b]c` is written by `handle` under its own name but read by `render` from the `b` field of option
  `a` (`OptionIds.SplitIsNotNamespaced`).
- `render` keeps `$view` from one item to the next. An item whose type is none of the five known ones is given the
  previous item's view. When the first item has an unknown type, or a select, textarea or group item
  holds no builder, PHP stops with a fatal error. `Render` returns `ok == false` in those cases.
- A select's `selected` and a textarea's `value` are cached by the builder's `render` when they were null.
  A group's entries are resolved into the view but not stored back.
- `checkbox()` ignores its `$checked` argument. The checked flag is the truthiness of the value resolved at
  render time.
- `OptionForm.success` is never set.

## Model

| member | source | states |
|---|---|---|
| `OptionIds.LastIndexOf` | app/Services/OptionForm.php:145 | the position found holds the character and no later position does; none exactly when the character does not occur |
| `OptionIds.SplitNamespaced` | app/Services/OptionForm.php:145-147 | the regex matches exactly when some `[` precedes some `]`; the id is then `prefix[sub]` followed by a rest without `]`, and `sub` holds no `[` (greedy groups) |
| `OptionIds.SplitJoin` | app/Services/OptionForm.php:145-147 | splitting `prefix[sub]`, for `sub` without `[`, gives back `prefix` and `sub`; a `]` inside `sub` stays in it |
| `OptionIds.NamespacedIsSplit` | app/Services/OptionForm.php:114-147 | every id `handle` skips as namespaced is split by `render` into the parts before and inside its final bracket pair |
| `OptionIds.SplitIsNotNamespaced` | app/Services/OptionForm.php:114-147 | the converse fails: `a[b]c` is split by `render` but not skipped by `handle` |
| `OptionForms.OptionStore.Set` | app/Services/OptionForm.php:118 | `Option::set` stores the value under the key and logs one write |
| `OptionForms.OptionFormItem.constructor` | app/Services/OptionForm.php:194-199 | a new item has the given id, title and type and no data |
| `OptionForms.OptionFormItem.Set` | app/Services/OptionForm.php:215-225 | after `set(k, v)`, `get(k)` is `v` and every other key reads as before |
| `OptionForms.OptionFormItem.Hint` | app/Services/OptionForm.php:201-206 | the item's hint is the text given |
| `OptionForms.OptionFormItem.SetContent` | app/Services/OptionForm.php:208-213 | the item's content is the view given |
| `OptionForms.OptionFormSelect.constructor` | app/Services/OptionForm.php:240-249 | a new select has the id, no options and a null selection |
| `OptionForms.OptionFormSelect.Add` | app/Services/OptionForm.php:251-254 | one option is appended |
| `OptionForms.OptionFormSelect.SetSelected` | app/Services/OptionForm.php:256-259 | the selection is the value given |
| `OptionForms.OptionFormSelect.Render` | app/Services/OptionForm.php:261-272 | a null selection is replaced, and cached, by `option(id)`; a set one is kept; the view carries id, options and selection |
| `OptionForms.OptionFormTextarea.constructor` | app/Services/OptionForm.php:277-288 | a new textarea has rows 3, an empty description and a null value |
| `OptionForms.OptionFormTextarea.SetContent` | app/Services/OptionForm.php:290-293 | the value is the content given |
| `OptionForms.OptionFormTextarea.SetRows` | app/Services/OptionForm.php:295-298 | the rows are the number given |
| `OptionForms.OptionFormTextarea.SetDescription` | app/Services/OptionForm.php:300-303 | the description is the text given |
| `OptionForms.OptionFormTextarea.Render` | app/Services/OptionForm.php:305-317 | a null value is replaced, and cached, by `option(id)`; a set one is kept; the view carries rows, id, value and description |
| `OptionForms.OptionFormGroup.constructor` | app/Services/OptionForm.php:324-329 | a new group has the id and no entries |
| `OptionForms.OptionFormGroup.Text` | app/Services/OptionForm.php:331-334 | one text entry with the id and value is appended |
| `OptionForms.OptionFormGroup.Addon` | app/Services/OptionForm.php:336-339 | one addon entry with a null id is appended |
| `OptionForms.OptionFormGroup.Render` | app/Services/OptionForm.php:341-354 | one view entry per entry, in order, with the same type and id; a text entry with a truthy id and a null value shows the stored option, read as `option(id, null, false)` is, every other entry (addons included) shows its own value |
| `OptionForms.RenderedKeepsView` | app/Services/OptionForm.php:261-317 | a builder that has rendered shows the same view when it renders again, and its cache no longer changes |
| `OptionForms.HandlePost` | app/Services/OptionForm.php:108-112 | after `handle`, posted fields keep their values, and the only fields added are the ids of checkboxes that were not posted, each as "0" |
| `OptionForms.HandleStoresPosted` | app/Services/OptionForm.php:108-120 | after `handle`, every item that is not namespaced has its (possibly defaulted) posted value stored |
| `OptionForms.HandleFrame` | app/Services/OptionForm.php:108-120 | `handle` changes no option outside the ids of non-namespaced items (so none for a namespaced id), and only appends writes of those ids |
| `OptionForms.SettledIsFixpoint` | app/Services/OptionForm.php:108-120 | when every checkbox is posted and every posted value is already stored, `handle` changes and writes nothing |
| `OptionForms.WriteOnlyIfDiffers` | app/Services/OptionForm.php:117-118 | in any submission, a field posted with exactly the value already stored keeps its posted and stored value and is not among the keys `handle` writes |
| `OptionForms.DefaultedCheckboxNotWritten` | app/Services/OptionForm.php:109-118 | an unchecked checkbox, compared as its defaulted "0", is not written when "0" is already stored, in any submission, provided no non-checkbox item shares its id |
| `OptionForms.HandleIdempotent` | app/Services/OptionForm.php:101-126 | `handle` leaves the submission settled, so handling the same post again writes nothing |
| `OptionForms.HandleThenResolve` | app/Services/OptionForm.php:108-153 | after `handle`, an item whose id holds no bracket pair and which has no truthy explicit value renders the value posted for it |
| `OptionForms.ResolveNamespaced` | app/Services/OptionForm.php:144-150 | an item `prefix[sub]` (any `sub` without `[`) with no truthy explicit value shows the `sub` field of the deserialized `prefix` option, null when it does not deserialize |
| `OptionForms.Carried` | app/Services/OptionForm.php:141-177 | one content per item, as the loop computes it with `$view` carried over |
| `OptionForms.CarriedNext` | app/Services/OptionForm.php:156-176 | an item's content is its own view, else the previous item's content; none for a first item without its own view |
| `OptionForms.CarriedIsLastOwn` | app/Services/OptionForm.php:141-177 | an item's content is the view of the last item up to it that produced one of its own |
| `OptionForms.ProgressStep` | app/Services/OptionForm.php:141-177 | one pass of the loop of `render` keeps the loop's invariant, or shows that `render` stops with a fatal error |
| `OptionForms.ProgressDone` | app/Services/OptionForm.php:141-177 | after the last item, no item crashed and the first had a view of its own |
| `OptionForms.RenderItem` | app/Services/OptionForm.php:142-174 | the outcome of one item is its resolved text or checkbox view (checked iff the value is truthy), its builder's view, a crash, or nothing of its own; only its builder changes |
| `OptionForms.OptionForm.constructor` | app/Services/OptionForm.php:17-27 | a new form has the id and title, no items, no messages, `success` false and no nested builders |
| `OptionForms.OptionForm.AddItem` | app/Services/OptionForm.php:80-87 | exactly one new item with the given id, title and type, and no data, is appended; earlier items are unchanged |
| `OptionForms.OptionForm.Text` | app/Services/OptionForm.php:29-32 | a new text item whose `value` is the value given, null by default |
| `OptionForms.OptionForm.Checkbox` | app/Services/OptionForm.php:34-39 | a new checkbox item whose `label` is the caption given |
| `OptionForms.OptionForm.AddWidgetItem` | app/Services/OptionForm.php:80-87 | a new item holding a builder under `view`, which no earlier item holds |
| `OptionForms.OptionForm.Select` | app/Services/OptionForm.php:41-52 | a new select item holding a fresh select builder under `view`, which is returned |
| `OptionForms.OptionForm.Textarea` | app/Services/OptionForm.php:54-65 | a new textarea item holding a fresh textarea builder (rows 3) under `view` |
| `OptionForms.OptionForm.Group` | app/Services/OptionForm.php:67-78 | a new group item holding a fresh group builder under `view`; the item is returned |
| `OptionForms.OptionForm.Hint` | app/Services/OptionForm.php:89-94 | the form's hint is the text given |
| `OptionForms.OptionForm.AddMessage` | app/Services/OptionForm.php:96-99 | one callout `<div class='callout callout-TYPE'>MSG</div>` is appended, with TYPE `info` by default |
| `OptionForms.OptionForm.Handle` | app/Services/OptionForm.php:101-126 | when the posted `option` names the form, `$_POST`, the store and its writes are as `HandlePass` computes and the status is flashed; otherwise nothing changes |
| `OptionForms.OptionForm.RenderBuilderAt` | app/Services/OptionForm.php:156-173 | item `i`'s outcome; only item `i`'s builder changes |
| `OptionForms.OptionForm.SetContentAt` | app/Services/OptionForm.php:176 | item `i` gets its content; no data and no other item changes |
| `OptionForms.OptionForm.RenderNext` | app/Services/OptionForm.php:141-177 | one pass of the loop: it keeps the loop's invariant, or shows that `render` stops |
| `OptionForms.OptionForm.Render` | app/Services/OptionForm.php:135-180 | `ok` exactly when no fatal error occurs; then every item's content is its `Carried` view, and every builder has rendered once; only contents and builder caches change |
| `AdminAjax.ParseAction` | admin/admin_ajax.php:21-69 | the action string selects one branch; it is unknown exactly when it is none of the five names |
| `AdminAjax.ParseActionName` | admin/admin_ajax.php:21-69 | the action named by each branch parses back to that branch |
| `AdminAjax.SlotAt` | admin/admin_ajax.php:46-51 | passes 1, 2 and 3 visit steve, alex and cape |
| `AdminAjax.Account.SetTexture` | admin/admin_ajax.php:25 | `setTexture` reports the given outcome and records an accepted upload |
| `AdminAjax.Account.ChangePasswd` | admin/admin_ajax.php:37 | the password is the posted one |
| `AdminAjax.Account.UnRegister` | admin/admin_ajax.php:42 | the user is no longer registered |
| `AdminAjax.Account.ClearTexture` | admin/admin_ajax.php:54 | `hash_<slot>` is set to `''`, and the other slots are unchanged |
| `AdminAjax.Account.SetPreference` | admin/admin_ajax.php:61 | the preferred model is the value given |
| `AdminAjax.TextureDir.Remove` | admin/admin_ajax.php:53 | the file is gone and the removal is logged |
| `AdminAjax.DoomedIn` | admin/admin_ajax.php:52 | the slots that are cleared are exactly those flagged "true" that hold a texture, in visiting order |
| `AdminAjax.DeleteSlotsHashes` | admin/admin_ajax.php:46-56 | the loop over distinct slots empties exactly the flagged non-empty slots; other slots keep their textures |
| `AdminAjax.DeleteSlotsRemoved` | admin/admin_ajax.php:46-56 | the loop removes the files of the slots it empties, in visiting order |
| `AdminAjax.DeleteSlotsFiles` | admin/admin_ajax.php:46-56 | every other file stays |
| `AdminAjax.DeleteTexturesEffect` | admin/admin_ajax.php:45-58 | over steve, alex and cape: a slot is emptied and its file removed iff it is flagged "true" and non-empty; nothing else changes |
| `AdminAjax.DeleteTextures` | admin/admin_ajax.php:46-56 | the `for` loop leaves the textures and files as `DeleteSlots` computes over steve, alex and cape |
| `AdminAjax.ModelAccepted` | admin/admin_ajax.php:60 | by precedence, the guard holds exactly when the posted model is "slim" or "default" |
| `AdminAjax.SuccessIffEffect` | admin/admin_ajax.php:17-72 | a request replies with errno 0 exactly when its branch reaches its success path, that is when `EffectOf` names a change (a `deleteTexture` with nothing flagged, or setting the current preference again, succeeds and leaves the state as it was) |
| `AdminAjax.UploadOutcome` | admin/admin_ajax.php:21-34 | without a file the upload is refused with "你没有选择任何文件哦"; with one, the texture type is `type` from the query, "skin" when absent, and the reply says whether `setTexture` accepted it |
| `AdminAjax.ChangeOutcome` | admin/admin_ajax.php:35-40 | an accepted password is stored and the reply names the user, with "" for a missing `uname`; a refused one gets no reply, a raised error its own, and neither changes anything |
| `AdminAjax.ModelOutcome` | admin/admin_ajax.php:59-66 | the posted model becomes the preference exactly when it is "slim" or "default", with a reply naming user and model; anything else is refused with "非法参数。" |
| `AdminAjax.NoActionNoReply` | admin/admin_ajax.php:17 | a request without `action` gets no reply and changes nothing |
| `AdminAjax.UnknownActionRefused` | admin/admin_ajax.php:67-69 | any other action replies errno 1 with "非法参数。" and changes nothing |
| `AdminAjax.Dispatch` | admin/admin_ajax.php:17-72 | one branch of the chain runs; the reply is `ReplyOf` and exactly the one change `EffectOf` names is made |

## Left out

- The callbacks given to `select`, `textarea`, `group`, `handle` and `always` are arbitrary user code.
  `Select`, `Textarea` and `Group` return the new builder, and the caller fills it afterwards.
  `always()` and the callback run at the start of `render` and `handle` are not modelled.
- View templates are not modelled. This covers the `hint` views, `OptionFormItem.render`, the main view with
  `get_object_vars`, and the HTML of each widget. A view is the data its template is given (`ItemView`),
  and a hint is the text given.
- `session()->flash` is a map of flash data. The `header('Location: …')` redirect is not modelled.
- `unserialize` and the `@` suppression are a function parameter of `Render` that returns a map or nothing.
- PHP's loose `==` and `!=` are plain equality on null-or-string values. So a posted "" is taken to differ
  from a stored null, and numeric strings such as "1" and "01" are different.
- The `.` of `/(.*)\[(.*)\]/` and `*` of `Str::is` match any character, line feeds included.
- `Arr::get` dot notation is not modelled: a `sub` key containing `.` is looked up as a flat key.
- `option()`'s configured defaults are not modelled: a missing option reads as null.
- `option($id, null, false)` (app/Services/OptionForm.php:117, 347) and `option($id)` (app/Services/OptionForm.php:148, 152, 264, 308)
  are read as the same stored value; what the third argument changes is not modelled.
- `OptionForms.OptionForm.Render`: it reads the options as a map `stored`, since rendering writes none. When `ok` is false (a
  PHP fatal error), it states nothing about the items' contents or builders.
- The `User` internals are not modelled: the lookup by `uname`, `setTexture`, `checkValidPwd`, the database and
  `json_encode`. The account for the request is given. Whether `setTexture` accepts an upload comes in as a
  parameter, and an accepted upload is only recorded. `checkValidPwd` may accept, return false, or raise an
  error, and that comes in as a `PasswordCheck`.
- `AdminAjax.SuccessIffEffect`: it assumes an error raised by `checkValidPwd` carries a nonzero code.
  `Utils` is not part of this model. `Utils::raise` is taken to end the request with its error reply.
- `$_FILES['file']` is an optional file name.
- The session include and the admin check at admin/admin_ajax.php:8-11 are authentication plumbing.
