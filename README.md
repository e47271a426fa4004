# Capture screen state machine of RestaurantNOW

The mobile front end of RestaurantNOW is a single React Native component,
`App`, in `frontend/App.tsx`. It holds two state cells: the uri of the
photograph just taken (`capturedUri`, a string or null) and a flag saying
whether the user has confirmed it (`viewConfirmedPic`). Four button handlers
update them:

- `takePicture` stores the uri the camera returns;
- `retakePicture` clears both cells;
- `confirmPicture` raises the flag;
- `goBackToCamera` lowers the flag.

On every render the component shows exactly one of three screens:

- the confirmed view with a Back button;
- the preview with Retake and Confirm buttons;
- the live camera with a shutter button.

The model is in two files. `wrappers.dfy` holds an `Option` type for the
nullable cell. `app.dfy` holds module `RestaurantApp`, which has:

- the render rule and each handler's effect as pure functions on a `State`
  value (`ScreenOf`, `ImageShown`, `TakeStep`, `RetakeStep`, `ConfirmStep`,
  `BackStep`);
- which buttons each screen offers (`Offers`), and traces of offered presses
  (`Legal`, `After`, `Reachable`);
- lemmas about all of these;
- class `App`, whose fields are the two state cells and whose methods are the
  handlers and the render decision. Each method is proved against the
  function for its step.

Modelling decisions:

- The render conditions test `capturedUri` for JavaScript truthiness, and the
  empty string is falsy. The model keeps this (`Truthy`): a capture that
  returned an empty uri leaves the camera screen up. For the same reason a
  confirmed state with an empty uri can never be reached.
- The camera call `takePictureAsync` is a parameter of `TakePicture`: `None`
  when the camera ref is null, otherwise the uri it returned.
- The two `setState` calls in `retakePicture` are batched by React. The model
  applies them one after the other, which gives the same final state.
- Despite its name, `goBackToCamera` only lowers the flag and keeps the uri,
  so Back from the confirmed view lands on the preview (`BackStep`).

## Model

| member | source | states |
|---|---|---|
| `RestaurantApp.Truthy` | frontend/App.tsx:39-57 | the image test in the render conditions is JavaScript truthiness: false for null and for the empty string, true for any other uri |
| `RestaurantApp.Initial` | frontend/App.tsx:14-15 | the initial state holds a null uri and has the flag off, so the camera screen is shown |
| `RestaurantApp.ScreenOf` | frontend/App.tsx:39-82 | the screen choice is total and exclusive: confirmed iff flag on and image truthy, preview iff flag off and image truthy, camera iff image falsy |
| `RestaurantApp.ImageShown` | frontend/App.tsx:39-68 | an image is displayed exactly on the preview and confirmed screens, and it is the stored non-empty `capturedUri` |
| `RestaurantApp.TakeStep` | frontend/App.tsx:17-23 | without a camera nothing changes; otherwise the returned uri is stored and the flag kept; from the camera screen with the flag off (as the invariant guarantees) a non-empty uri leads to the preview; an empty uri always leaves the camera screen up |
| `RestaurantApp.RetakeStep` | frontend/App.tsx:25-28 | from any state the result is the initial state, showing the camera with no image |
| `RestaurantApp.ConfirmStep` | frontend/App.tsx:30-33 | the flag is raised and the image kept; from the preview it leads to the confirmed screen showing the same image |
| `RestaurantApp.BackStep` | frontend/App.tsx:35-37 | the flag is lowered and the image kept; the result is never the confirmed screen, and from the confirmed screen it is the preview with the same image, not the camera |
| `RestaurantApp.Offers` | frontend/App.tsx:39-82 | each button sits on exactly one screen: the shutter (`takePicture`, line 78) on the camera, Retake and Confirm (lines 61, 64) on the preview, Back (line 44) on the confirmed view |
| `RestaurantApp.Step` | frontend/App.tsx:17-37 | the handler behind each button: Retake gives the initial state; Confirm and Back keep the uri; a take with a uri stores it; apart from Retake, the flag ends on exactly for Confirm, or for a take when it was already on |
| `RestaurantApp.StepsIdempotent` | frontend/App.tsx:25-37 | retake, confirm and back each give the same state when applied twice as once |
| `RestaurantApp.EnabledStepKeepsInv` | frontend/App.tsx:39-82 | a press of a button the current screen offers keeps "flag on implies image truthy" |
| `RestaurantApp.LegalTraceKeepsInv` | frontend/App.tsx:39-82 | any sequence of offered presses keeps that invariant |
| `RestaurantApp.ReachableIffInv` | frontend/App.tsx:14-82 | a state is reachable from the initial one by offered presses iff it satisfies the invariant, that is iff it is (no image, off), (some image, off) or (non-empty image, on) |
| `RestaurantApp.SameImageUntilRetake` | frontend/App.tsx:30-68 | once a non-empty image is held, offered presses other than Retake never change it, never return to the camera, and every screen shows that image |
| `RestaurantApp.CameraAlwaysReachable` | frontend/App.tsx:39-82 | from every state the camera screen is reached by at most two offered presses |
| `RestaurantApp.App.constructor` | frontend/App.tsx:13-15 | the component starts in the initial state |
| `RestaurantApp.App.TakePicture` | frontend/App.tsx:17-23 | the fields become `TakeStep` of the old fields: the uri is stored when there is one, the flag is untouched |
| `RestaurantApp.App.RetakePicture` | frontend/App.tsx:25-28 | both fields are cleared, as `RetakeStep` says |
| `RestaurantApp.App.ConfirmPicture` | frontend/App.tsx:30-33 | only the flag changes, to on, as `ConfirmStep` says |
| `RestaurantApp.App.GoBackToCamera` | frontend/App.tsx:35-37 | only the flag changes, to off, as `BackStep` says |
| `RestaurantApp.App.Render` | frontend/App.tsx:39-82 | the screen and image rendered are `ScreenOf` and `ImageShown` of the current fields, and a displayed image is the stored uri |

## Left out

- The camera device (`RNCamera`, `takePictureAsync`): a foreign asynchronous API. Its result is the `shot` parameter of `TakePicture`. A rejected camera promise is not modelled.
- The capture options (`quality: 0.5`, `base64: true`): they do not affect the state.
- Overlapping captures from repeated shutter presses while a capture is still pending: this is concurrency. The model treats each handler as one atomic update.
- The `console.log` in `confirmPicture`, the JSX layout and the style sheet: presentation only.
- `backend/run.py`: a Flask route that only checks that an `image` part is present and returns fixed text. The front end never calls it.
- `backend/test.py` and `backend/test_api.py`: ad-hoc HTTP client scripts with no assertions.
