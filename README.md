# Ryzup site scripts: a verified model

This project models the behaviour-bearing core of the Ryzup website's two
scripts:

- `sw.js`, the image cache service worker. On install it opens the cache
  store named `ryzup-images-v1`. On every fetch whose destination is an
  image it answers from the first store (in creation order) that holds the
  request; on a miss it goes to the network and writes the response into
  `ryzup-images-v1` only when the response exists, has status 200 and is of
  type `basic`. On activate it deletes every store whose name is not
  `ryzup-images-v1`.
- `js/main.js`, the page script. The model covers:
  - `fixServicesGrid`, which picks one of five grid layouts from the window
    width;
  - the hero slider, with its current index, its animation lock, its
    prev/active/next classes, its progress bar and its captions;
  - the mobile hamburger menu, which locks the body while open;
  - the custom cursor's five state flags and the scale chosen from them by
    priority;
  - the one-time binding of extra hover listeners in `addCursorEffects`;
  - the in-page link handler, with its header offset and its card highlight.

State that the source updates in place is modelled by classes whose methods
are proved against pure specification functions:

- `CacheStorage` for the browser's cache storage;
- `Slider`, `Menu`, `Cursor` and `HoverBinder` for the page script's
  closure variables and DOM classes.

The properties themselves are proved as lemmas about those functions.

Modules and files:

| module | file | models |
|---|---|---|
| `ImageCache` | `image_cache.dfy` | `sw.js` |
| `ServicesGrid` | `services_grid.dfy` | `fixServicesGrid` |
| `HeroSlider` | `hero_slider.dfy` | the slider |
| `MobileMenu` | `mobile_menu.dfy` | the hamburger menu |
| `CursorEffects` | `cursor_effects.dfy` | the cursor flags and `addCursorEffects` |
| `AnchorScroll` | `anchor_scroll.dfy` | the `a[href^="#"]` click handler |
| `Wrappers` | `wrappers.dfy` | `Option` |

Inputs the page takes from the browser become parameters:

- the network, as a function from request keys to optional responses;
- the element lookup `getElementById(..).offsetTop`, as a function from ids
  to optional offsets;
- the window width and the Chrome detection, as an integer and a boolean.

Timer callbacks are events of their own, delivered when the timer fires.

Two details of the worker shape the model:

- A fetch looks the request up across all stores (`caches.match`), not
  only in `ryzup-images-v1`. When several stores hold the request, the
  oldest one answers.
- The store is opened both at install and again on every qualifying write.
  Activation only deletes stores and never creates one. Exactly one store is
  left only because install runs before activate.

## Model

| member | source | states |
|---|---|---|
| ImageCache.Lookup | sw.js:24-27 | The result is the entry of the first store, in creation order, that holds the key. It is absent exactly when no store holds the key. |
| ImageCache.Qualifies | sw.js:31 | A response is written to the cache exactly when it exists, has status 200 and has type `basic`. |
| ImageCache.OpenStore | sw.js:13 | After `caches.open`, the store exists. An absent store is created empty and placed last in creation order. Every other store is unchanged. |
| ImageCache.PutEntry | sw.js:38-39 | Only the named store gains or replaces the entry for the key. Every other store is unchanged. |
| ImageCache.DeleteStore | sw.js:56 | `caches.delete` removes exactly the named store. The others keep their entries. |
| ImageCache.Pruned | sw.js:52-58 | After activation, only `ryzup-images-v1` can exist, and its entries are untouched. |
| ImageCache.CacheStorage.Match | sw.js:24 | `caches.match` scans the stores in creation order, and its result equals `Lookup`. Nothing changes. |
| ImageCache.CacheStorage.Open | sw.js:13 | Opening an existing store changes nothing. Opening a missing one appends it, empty, to the creation order. |
| ImageCache.CacheStorage.Put | sw.js:38-40 | Only the named store changes, and only at that key. The store is created first when it is missing. |
| ImageCache.CacheStorage.Delete | sw.js:56 | The named store and its name are removed, and nothing else changes. The result tells whether the store existed. |
| ImageCache.Without | sw.js:56 | Removing a name keeps exactly the other names. It keeps the list free of duplicates, and a list without the name comes back unchanged. |
| ImageCache.WithoutCutsOne | sw.js:56 | From a duplicate-free creation order, deleting a store cuts out exactly its one position. The names before and after it keep their order. |
| ImageCache.FetchSpec | sw.js:21-47 | Only image requests are intercepted. A fetch never goes to the network more than once, and not at all on a hit. It writes to the cache only when the network response qualifies. It writes only into `ryzup-images-v1`. |
| ImageCache.Install | sw.js:11-18 | After install, `ryzup-images-v1` exists. Existing stores are kept. |
| ImageCache.Fetch | sw.js:21-47 | The handler's answer, its network use and the new cache state agree with `FetchSpec` for the old state. |
| ImageCache.Activate | sw.js:50-62 | After activation, only `ryzup-images-v1` can remain. Its contents are untouched. |
| ImageCache.DeleteAllBut | sw.js:52-59 | Deleting every listed name that is not current leaves exactly the names of the old order that are current. |
| ImageCache.FetchIgnoresNonImage | sw.js:22 | A non-image request is not intercepted, touches neither the network nor the cache, and leaves the cache as it was. |
| ImageCache.FetchServesHit | sw.js:24-27 | A request is answered from the first store, in creation order, that holds it, whatever later stores hold. There is no network use and no write. |
| ImageCache.FetchMissNotStored | sw.js:29-33 | On a miss with a non-qualifying response, the network response (or its absence) is returned and the cache is unchanged. |
| ImageCache.FetchMissStored | sw.js:35-42 | On a miss with a qualifying response, that response is returned and stored in `ryzup-images-v1` under the request. |
| ImageCache.SecondFetchIsHit | sw.js:24-42 | After a qualifying miss, the next fetch of the same image is served from the cache without the network. |
| ImageCache.UnqualifiedIsRefetched | sw.js:29-33 | A response that does not qualify is fetched again from the network on every later request. |
| ImageCache.InstallOpensCurrent | sw.js:11-17 | After install, `ryzup-images-v1` exists. If it existed already, nothing changed; otherwise it was created empty. |
| ImageCache.CurrentIn | sw.js:52-58 | The names activation keeps are exactly the listed names equal to `ryzup-images-v1`, without duplicates. |
| ImageCache.InstallThenActivate | sw.js:50-62 | Install followed by activate leaves exactly one store, `ryzup-images-v1`, holding what it held before (or empty when new). |
| ImageCache.ActivateAloneCreatesNothing | sw.js:50-62 | Activation over a storage without `ryzup-images-v1` leaves no store at all. |
| ImageCache.ActivateIdempotent | sw.js:50-62 | A second activation finds nothing left to delete. |
| ImageCache.ActivateDropsOldGeneration | sw.js:52-58 | A store of any other cache name is gone after activation, with all its entries. The current store keeps every entry it had. |
| ServicesGrid.BandOf | js/main.js:15-75 | Every integer width falls in exactly one of the five bands that the if/else-if chain tests. |
| ServicesGrid.LayoutFor | js/main.js:16-74 | `width: 100%` is written exactly for the two desktop bands. The Chrome reset is applied exactly with it in Chrome. `1fr` rows go with `stretch` exactly in the three widest bands. The gap is 20, 22 or 25 pixels. |
| ServicesGrid.GridLayout | js/main.js:14-75 | `width: 100%` is written exactly from 1025 pixels up. The Chrome reset is applied exactly from 1025 pixels up in Chrome. Rows are `1fr`/stretch exactly from 769 pixels up. There are 1 to 6 columns. |
| ServicesGrid.ColumnsPerBand | js/main.js:15-75 | The bands get 1, 2, 3, 3 and 6 columns, narrowest first, in any browser. |
| ServicesGrid.ColumnsMonotone | js/main.js:15-75 | A wider window never gets fewer columns. |
| ServicesGrid.GapPerBand | js/main.js:20-74 | The gap is 22px on small desktops, 25px on tablets and 20px otherwise. |
| ServicesGrid.Restyle | js/main.js:5-77 | One call writes the grid of its width. `width: 100%`, `gridAutoFlow: row` and the card reset are set afterwards exactly when they were set before or this call writes them. |
| ServicesGrid.RestyleAll | js/main.js:80-81 | After the load call and each resize, the grid is that of the last width. Nothing ever clears what an earlier call set. |
| ServicesGrid.RestyleHistory | js/main.js:5-81 | After the load call and any resizes, the grid properties are those of the last width. `width: 100%` and `gridAutoFlow: row` stay set once any width reached 1025 pixels (the latter only in Chrome), even after the window narrows. |
| HeroSlider.NextIndex | js/main.js:676 | The next index stays in range and wraps from the last slide to the first. |
| HeroSlider.PrevIndex | js/main.js:682 | The previous index stays in range and wraps from the first slide to the last. |
| HeroSlider.PrevUndoesNext | js/main.js:674-684 | Going forward then back, or back then forward, returns to the same slide. |
| HeroSlider.MarksFor | js/main.js:634-652 | After a redraw, exactly the target image is active. Every image before it is prev and every image after it is next. Each image carries exactly one class. |
| HeroSlider.Progress | js/main.js:661-664 | The progress bar is above 0% and at most 100%. It is full exactly on the last slide. |
| HeroSlider.ProgressIncreasing | js/main.js:662 | A later slide has a longer progress bar. |
| HeroSlider.Slider.Setup | js/main.js:614-715 | No slider exists exactly when there are no images. Otherwise the slider starts drawn on slide 0 with the animation lock raised. |
| HeroSlider.Slider.constructor | js/main.js:346-348 | The module-level state starts at slide 0, not animating, with direction 'next'. |
| HeroSlider.Slider.UpdateSlide | js/main.js:628-672 | While animating, nothing changes. Otherwise the classes, the progress bar and the caption (when one exists) are redrawn for the index, which becomes current, and the lock is raised. |
| HeroSlider.Slider.ClearMarks | js/main.js:635-637 | Every image loses all three slider classes. |
| HeroSlider.Slider.AddNeighbourMarks | js/main.js:640-652 | Both direction branches produce the same classes: prev before the index and next after it. |
| HeroSlider.Slider.AnimationFinished | js/main.js:669-671 | The 600 ms timer only lowers the lock. |
| HeroSlider.Slider.NextSlide | js/main.js:674-678 | The index always advances, even when the redraw is blocked. While blocked, the classes, the bar and the caption stay as they were. Otherwise they follow the new index, and the caption is kept for a slide without one. The slider stays consistent. |
| HeroSlider.Slider.PreviousSlide | js/main.js:680-684 | The mirror of `NextSlide`, one slide back, with the same caption behaviour. |
| HeroSlider.Slider.AutoPlayTick | js/main.js:701-705 | An autoplay tick advances and redraws only when no animation runs. Otherwise the index, the classes, the bar and the caption stay as they were. Either way the animation lock ends raised. |
| MobileMenu.Menu.constructor | js/main.js:428-433 | The assumed state as the page loads, before the handlers are attached: menu closed, body unlocked, toggle and menu in agreement. |
| MobileMenu.Menu.ToggleClick | js/main.js:435-445 | Both `active` classes flip. The body is locked exactly when the menu is now open. |
| MobileMenu.Menu.LinkClick | js/main.js:448-454 | A menu link closes the menu and unlocks the body. |
| MobileMenu.Menu.DocumentClick | js/main.js:457-463 | A click outside both the toggle and the menu closes the menu. Any other click changes nothing. |
| MobileMenu.Menu.Click | js/main.js:435-463 | One click, seen by the target's handler and then by the document's, has the effect `AfterClick` gives from any state. A consistent menu stays consistent. |
| MobileMenu.AfterClick | js/main.js:435-463 | A toggle click flips the menu. A link click or an outside click closes it. A click inside the menu changes nothing. The lock matches the menu after every click that changes it. |
| MobileMenu.ClicksKeepConsistent | js/main.js:435-463 | After any click sequence, the toggle and the menu agree and the body is locked exactly while the menu is open. |
| MobileMenu.ClosingClickLast | js/main.js:448-463 | Any click sequence that ends with a link click or an outside click leaves the menu closed and the body unlocked. |
| MobileMenu.ToggleTwiceRestores | js/main.js:435-445 | Two toggle clicks restore the menu's state. |
| CursorEffects.ModeOf | js/main.js:157-185 | The look is chosen by priority: text, then clicking, then navigation, then hovering, then normal. Each look is chosen exactly when its flag holds and no higher flag does. |
| CursorEffects.ScalesOf | js/main.js:153-182 | Only the normal look keeps scale 1. The dot shrinks exactly for the text and click looks. Otherwise the outline is larger than the dot. |
| CursorEffects.LooksDistinct | js/main.js:153-182 | No two looks share their dot and outline scales. |
| CursorEffects.FrameScales | js/main.js:142-190 | A frame transforms the cursor exactly when it is visible. The cursor keeps its size exactly when no flag is up. It shrinks exactly over text or while clicking, at 0.6/0.8 over text whatever else holds. It grows exactly on a navigation link or while hovering, with neither text nor click. |
| CursorEffects.Step | js/main.js:122-330 | Each handler keeps text and hovering exclusive. Leaving the window clears visibility, hovering, clicking and text but keeps the navigation flag. Only navigation callbacks change the navigation flag. Only move, enter and leave change visibility. |
| CursorEffects.StepsKeepTextHoverExclusive | js/main.js:225-330 | From the initial flags, no event sequence shows the text look and the hover look together. |
| CursorEffects.HoverLookWhenHovering | js/main.js:157-181 | In reachable states, the hover look shows exactly when hovering, not clicking and not on a navigation link. |
| CursorEffects.Cursor.constructor | js/main.js:111-115 | All five flags start false. |
| CursorEffects.Cursor.Handle | js/main.js:122-330 | Each handler, or fired timer callback, changes the flags as `Step` says. |
| CursorEffects.Cursor.Frame | js/main.js:142-190 | The animation frame applies the scales `FrameScales` gives. |
| CursorEffects.HoverBinder.AddCursorEffects | js/main.js:399-423 | Every element found is marked afterwards and has its listeners exactly once, however many runs came before. Elements bound earlier are not bound again. |
| AnchorScroll.TargetId | js/main.js:485 | The id is the href with its leading `#` dropped, and empty for an empty href. |
| AnchorScroll.Includes | js/main.js:505 | `includes` holds exactly when the substring occurs at some position. |
| AnchorScroll.AnchorClick | js/main.js:482-508 | Nothing happens when no element has the id. Otherwise the page scrolls to the element's top less 100 pixels for `services-cards` and less 80 otherwise. The target is highlighted exactly when its id contains "-card". |
| AnchorScroll.ServicesSectionIsHighlighted | js/main.js:492-507 | A link to `#services-cards` scrolls with the 100 pixel offset and also highlights the whole section, since its id contains "-card". |
| AnchorScroll.PlainTargetNotHighlighted | js/main.js:489-507 | An id without "-card" is never highlighted and is scrolled to with the 80 pixel offset. |

## Left out

- **Presentation.** Inline CSS strings, `console.log` output, transitions and opacity are not modelled. Neither are the caption texts: a caption is its index into `slideData`.
- **Cursor motion.** The cursor's mouse position, the `lerp` smoothing and the `requestAnimationFrame` loop are left out: they are motion in floating point, not state.
- **Other visual effects.** Parallax, particles, the trust-item hover styles and the hero button transitions are not modelled.
- **Cursor CSS classes.** The `cursor-hover`, `cursor-click` and `cursor-text` classes written on the body and on the cursor elements are not modelled. The same goes for the listeners `addCursorEffects` attaches, beyond their count. Only the five flags and the scales are.
- **Timers.** Timer cancellation (`clearTimeout` of a pending hover callback) is not modelled. A cancelled callback is simply an event that never occurs. The same holds for the 600 ms slider lock timer.
- **Autoplay interval.** Starting and stopping the autoplay interval on hover is not modelled; only a tick of it is.
- **Promise ordering.** In `sw.js` every promise is taken to settle before the next event. The fire-and-forget cache write is modelled as done before the handler's next call. Concurrent fetches of one image are not modelled.
- **Network rejection.** A rejected network fetch is represented like a missing response, as `None`.
- **Request matching.** Matching is by equality of an abstract request key. HTTP method, `Vary` and query-string rules of `caches.match` are not modelled, nor are failures of `cache.put` (quota, non-GET requests).
- **`IMAGE_CACHE_PATHS`.** It is declared in `sw.js` but never used, so it is not modelled.
- **Device handling.** Touch and mobile detection, the cursor's removal on touch devices and `initTabletOptimizations` are not modelled.
- **Other page features.** The hero and scroll-indicator buttons, `smoothScrollToAbout`, the footer link handler that scrolls with `scrollIntoView`, the intersection observer, the copyright year, back-to-top, the social-link logs and the terms modal functions are not part of this model.
- **Highlight effect.** `highlightServiceCard` is modelled only as the decision to highlight. Its timed classes are not.
- **Slider elements.** The overlay and progress-bar elements are taken to exist. The images' initial classes from the HTML are replaced by the first redraw and are not modelled.
- **Progress bar.** The progress bar width is an exact real rather than a floating-point number.
- **Menu initial state.** The toggle and the menu are taken to load without `active`, and the body without inline overflow. That state comes from the page's HTML, which is not modelled. `MobileMenu.Menu.constructor` states this assumption, and `ClicksKeepConsistent` applies to the real page through it.
