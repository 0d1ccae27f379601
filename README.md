# NinjaPaginator page windows, in Dafny

This project models the core of `django-ninjapaginator`, a pagination decorator for Django views. It covers two parts.

- **The `NinjaPaginator` object** in `ninjapaginator/util.py`. After the wrapped view returns its dictionary, `decorate` does four things:
  - it pops the object list;
  - it rejects a page outside `1..num_pages` (Django's `EmptyPage`, answered with `Http404`);
  - it writes `page_num`, `per_page`, the current page's objects and `<style> = True`;
  - it looks up the method `<style>_style` and runs it.

  `digg_style` writes the `PREVIOUS`/`NEXT` markers and up to three clusters of page numbers (`left_page_numbers`, `middle_page_numbers`, `right_page_numbers`). `filmfeed_style` writes one sliding window, `page_numbers`.
- **The `page_link` template tag** in `ninjapaginator/templatetags/paginator.py`. It builds `?page=<n>`. When there are parameters it appends `&amp;` and the parameters with every `&` escaped as `&amp;`.

Files:

- `wrappers.dfy`: module `Wrappers`, with `Option` and `Result`.
- `page_windows.dfy`: module `PageWindows`.
  - Python 2's `range` becomes `Range`.
  - The digg decision chain becomes the value `DiggWindow(p, n, f)`. Here `p` is the page count, `n` the current page and `f` the frame size.
  - The filmfeed chain becomes `FilmfeedWindow(p, n, f)`.
  - Lemmas state what each branch shows, its bounds, its widths and its ordering.
  - Python 2's `/` on non-negative operands is floor division, and so is Dafny's `/` for a positive divisor.
- `ninja_paginator.dfy`: module `Util`.
  - The class `NinjaPaginator` has an `output: map<string, Value>` field. Its methods `DiggStyle`, `FilmfeedStyle` and `Decorate` update that field in place, following the source's if/elif chains statement by statement.
  - Each method is proved against the specification functions `WithDigg`, `Styled`, `Prepared` and `Decorated`.
  - Python's exceptions become the `Error` values of a `Result`: `KeyError` from `pop`, `Http404`, and the `AttributeError` from `getattr`.
- `page_link.dfy`: module `PaginatorTags`.
  - `PageLink` is the tag. `IntText` gives Python's `str` of an integer. `Replace` is `str.replace`, and `Escape` is `Replace` with `&` → `&amp;`.
  - The partners are `Unescape` and `ParseLink`. The lemmas prove both round trips, and prove that every `&` in a link begins `&amp;`.

Two behaviours of the code are worth spelling out:

- For 20 pages, page 10 and frame 8, the digg middle cluster is `range(10 - 4 + 1, 10 + 4)`, which is `[7..13]`. `DiggExampleMiddle` proves that.
- An unknown style is detected only inside `decorate`, by `getattr`, after the dictionary has already been updated. Any style name other than `digg` and `filmfeed` fails there. The model does the same.

## Model

| member | source | states |
|---|---|---|
| PageWindows.Range | ninjapaginator/util.py:64 | Python 2's `range(lo, hi)` has `hi - lo` entries (none when `hi <= lo`), and entry `i` is `lo + i`. |
| PageWindows.DiggWindow | ninjapaginator/util.py:58-76 | `PREVIOUS` is written iff `n > 1` and is then `n - 1`. `NEXT` is written iff `n < p` and is then `n + 1`. The left cluster is written iff `p != f`. The middle cluster is written iff `p > f + 2` and `n > f - 2`. The right cluster is written iff `p > f + 2` and `n` is near the start (`n < f - 1`) or in the middle (`p - f/2 > n + 1`). |
| PageWindows.DiggUntruncated | ninjapaginator/util.py:63-66 | If `f < p <= f + 2` or `p < f`, the left cluster is all `p` pages `[1..p]`. There is no middle or right cluster. |
| PageWindows.DiggFrameEqualsPages | ninjapaginator/util.py:63-76 | If `p == f`, no branch applies and no cluster is written. |
| PageWindows.DiggNearStart | ninjapaginator/util.py:67-69 | If `p > f + 2` and `n < f - 1`: left is `[1..f]`, right is `[p-1, p]`, and there is no middle. A gap of at least one page separates left from right. |
| PageWindows.DiggNearEnd | ninjapaginator/util.py:70-72 | Near the end: left is `[1, 2]`, and middle is `[p-f+1..p]` with exactly `f` entries, ending at `p`. Middle starts after a gap following page 2. There is no right cluster. |
| PageWindows.DiggMiddle | ninjapaginator/util.py:73-76 | In the middle: left is `[1, 2]`, middle is `[n - f/2 + 1 .. n + f/2 - 1]` (with `2*(f/2) - 1` entries when `f >= 2`), and right is `[p-1, p]`. Middle ends before a gap preceding `p - 1`. |
| PageWindows.DiggBounds | ninjapaginator/util.py:64-76 | For `1 <= n <= p` and any frame, every written cluster is a strictly increasing run of consecutive pages in `[1, p]`. |
| PageWindows.DiggShowsCurrentPage | ninjapaginator/util.py:63-76 | For `f >= 3` and `p != f`, the current page is in some cluster. |
| PageWindows.DiggClustersOrdered | ninjapaginator/util.py:67-76 | For `f >= 5`, the written clusters are pairwise disjoint and in ascending order. |
| PageWindows.DiggRepeatsPageWithSmallFrame | ninjapaginator/util.py:73-75 | With `f = 4`, `p = 7` and `n = 3`, left is `[1, 2]` and middle is `[2, 3, 4]`, so page 2 is listed twice. |
| PageWindows.DiggHidesPageWithFrameTwo | ninjapaginator/util.py:70-72 | With `f = 2`, `p = 5` and `n = 3`, left is `[1, 2]`, middle is `[4, 5]` and there is no right cluster, so page 3 is not shown. The `f >= 3` bound of `DiggShowsCurrentPage` cannot be dropped. |
| PageWindows.DiggExampleFewPages | ninjapaginator/util.py:58-66 | 5 pages, page 3, frame 8: the markers are 2 and 4 and left is `[1..5]`. There is no middle or right cluster. |
| PageWindows.DiggExampleFirstPage | ninjapaginator/util.py:58-69 | 20 pages, page 1, frame 8: there is no `PREVIOUS`, `NEXT` is 2, left is `[1..8]` and right is `[19, 20]`. |
| PageWindows.DiggExampleNearEnd | ninjapaginator/util.py:58-72 | 20 pages, page 19, frame 8: left is `[1, 2]` and middle is `[13..20]`. |
| PageWindows.DiggExampleMiddle | ninjapaginator/util.py:58-76 | 20 pages, page 10, frame 8: left is `[1, 2]`, middle is `[7..13]` and right is `[19, 20]`. |
| PageWindows.FilmfeedWindow | ninjapaginator/util.py:79-89 | For `1 <= n <= p`, the window is a strictly increasing run of consecutive pages in `[1, p]`. |
| PageWindows.FilmfeedUntruncated | ninjapaginator/util.py:80-81 | If `p < f`, the window is all `p` pages `[1..p]`. |
| PageWindows.FilmfeedPinned | ninjapaginator/util.py:82-85 | The window pinned to the start is `[1..f]`. The window pinned to the end is `[p-f+1..p]`. Both have exactly `f` entries. |
| PageWindows.FilmfeedCentred | ninjapaginator/util.py:86-89 | The centred window is `[n - f/2 .. n + f/2]`. It has `2*(f/2) + 1` entries, with `n` in the centre. For even `f` that is `f + 1`, one more than the pinned windows. |
| PageWindows.FilmfeedShowsCurrentPage | ninjapaginator/util.py:80-89 | For `1 <= n <= p` and `f >= 1`, the current page is in the window. |
| PageWindows.FilmfeedExampleCentred | ninjapaginator/util.py:86-89 | 20 pages, page 10, frame 8: the window is `[6..14]`, nine pages. |
| PageWindows.FilmfeedExampleFirstPage | ninjapaginator/util.py:82-83 | 20 pages, page 1, frame 8: the window is `[1..8]`. |
| PageWindows.FilmfeedExampleNearEnd | ninjapaginator/util.py:84-85 | 20 pages, page 18, frame 8: the window is `[13..20]`. |
| Util.StyleNamed | ninjapaginator/util.py:55-56 | `getattr(self, name + "_style")` finds `digg_style` iff the name is `digg`, and `filmfeed_style` iff it is `filmfeed`. Every other name finds nothing. |
| Util.WithDigg | ninjapaginator/util.py:58-77 | `digg_style` writes only the five digg keys. Every other key keeps its presence and its value, and no other key appears. |
| Util.Styled | ninjapaginator/util.py:58-90 | A style adds only its own keys. Every other key keeps its presence and its value, and no other key appears. |
| Util.WithDiggEntries | ninjapaginator/util.py:59-76 | Each of the five digg keys holds what the digg layout gives for it. For each key the layout leaves out, the key is present afterwards iff it was present before, and then it keeps its old value. |
| Util.FilmfeedLeavesMarkers | ninjapaginator/util.py:79-90 | Filmfeed never writes `PREVIOUS` or `NEXT`, and it always writes `page_numbers`. |
| Util.Prepared | ninjapaginator/util.py:40-54 | After the pop and the four writes, `<style>` is `True` and the object-list key holds the page's objects. `page_num` and `per_page` hold their values unless a later write reused the key. The view's other entries are unchanged. The key set is the view's keys plus the four new ones. |
| Util.Decorated | ninjapaginator/util.py:40-56 | Decorate fails with exactly one error, checked in this order: a missing object-list key, then a page outside `1..pages`, then a style other than `digg`/`filmfeed`. It succeeds otherwise. |
| Util.DecoratedKeys | ninjapaginator/util.py:50-56 | On success, `page_num`, `per_page`, the object list and `<style> = True` survive the style unless a key collides. Every other entry of the view passes through. |
| Util.NinjaPaginator.constructor | ninjapaginator/util.py:17-24 | Stores the object-list key, the style name, `per_page` and the frame size. When they are omitted they default to `"object_list"`, `"digg"`, 10 and 8. |
| Util.NinjaPaginator.DiggStyle | ninjapaginator/util.py:58-77 | The new output is the old one with the digg layout for `(pages, page_num, frame_size)` written in. The method returns that output. |
| Util.NinjaPaginator.FilmfeedStyle | ninjapaginator/util.py:79-90 | The new output is the old one with `page_numbers` set to the filmfeed window. The method returns that output. |
| Util.NinjaPaginator.Decorate | ninjapaginator/util.py:33-56 | The result is `Decorated(...)`. The fields `output`, `page_num` and `pages` hold what the source has assigned when it returns or raises. |
| PaginatorTags.NatText | ninjapaginator/templatetags/paginator.py:10 | `str` of a natural number is one or more digits, with no leading zero except in `"0"`. |
| PaginatorTags.IntText | ninjapaginator/templatetags/paginator.py:10 | `str` of an integer contains no `&` and starts with `-` iff the integer is negative. It has no leading zero: a non-negative integer's text starts with `0` iff it is 0, and a negative integer's digits do not start with `0`. |
| PaginatorTags.IntTextRoundTrip | ninjapaginator/templatetags/paginator.py:10 | The decimal text of an integer reads back as that integer. |
| PaginatorTags.Replace | ninjapaginator/templatetags/paginator.py:12 | `str.replace` with a one-character pattern changes the length by `(len(with) - 1)` per occurrence, and leaves a string without the pattern unchanged. |
| PaginatorTags.ReplaceConcat | ninjapaginator/templatetags/paginator.py:12 | `str.replace` with a one-character pattern distributes over concatenation: replacing in `a + b` is replacing in `a`, then in `b`. |
| PaginatorTags.ReplaceChar | ninjapaginator/templatetags/paginator.py:12 | A single character becomes the replacement iff it is the pattern, and stays as it is otherwise. |
| PaginatorTags.Escape | ninjapaginator/templatetags/paginator.py:12 | The escaped text is `len(params) + 4 * count(params, '&')` long. Text without `&` is unchanged. |
| PaginatorTags.EscapeWellEscaped | ninjapaginator/templatetags/paginator.py:12 | In the escaped text, every `&` begins an `&amp;`. |
| PaginatorTags.UnescapeEscape | ninjapaginator/templatetags/paginator.py:12 | Deleting the `amp;` after each `&` recovers the parameters exactly. |
| PaginatorTags.EscapeUnescape | ninjapaginator/templatetags/paginator.py:12 | Every text in which each `&` begins `&amp;` is the escape of its unescaping. So escaping is a bijection onto such texts. |
| PaginatorTags.PageLink | ninjapaginator/templatetags/paginator.py:9-13 | The link starts with `?page=` followed by the decimal text of `num_page`. It is exactly that prefix iff `params` is None or empty. |
| PaginatorTags.PageLinkWellEscaped | ninjapaginator/templatetags/paginator.py:9-13 | Every `&` in a page link begins an `&amp;`. |
| PaginatorTags.PageLinkRoundTrip | ninjapaginator/templatetags/paginator.py:9-13 | Parsing a page link gives back `num_page` and `params` (the empty string for None). So the link is `?page=<n>`, or `?page=<n>&amp;` followed by the escaped parameters. |

## Left out

- The call to the wrapped view and the non-dictionary pass-through (`ninjapaginator/util.py:37-39`), and `__call__` (`ninjapaginator/util.py:26-31`). These are decorator plumbing. `Decorate` takes the view's dictionary as a parameter.
- Reading `request.GET['page']` and falling back to page 1 on `ValueError` or `MultiValueDictKeyError` (`ninjapaginator/util.py:41-44`). This is request I/O. The requested page is a plain integer parameter.
- Django's `Paginator`: the page count and the slicing of the current page's objects (`ninjapaginator/util.py:45, 47, 52-53`). This is a foreign library. Its page count and the page's objects are parameters, and its `EmptyPage` check is the range test `1 <= page <= pages`.
- The `paginate_qs`, `paginator` and `page` attributes. Nothing in the modelled core reads them except through the page count.
- The in-place aliasing between the view's dictionary and `self.output`. In the source, the caller's dictionary object is itself mutated. The model's `output` is a map value, so the model does not capture that sharing.
- The state before the first `decorate`. Python's `__init__` leaves `output`, `page_num` and `pages` unset. The constructor gives them empty/zero placeholders.
- Concurrent requests. The decorator builds one `NinjaPaginator` when the view is decorated, and `__call__` hands back its bound `decorate` (`ninjapaginator/util.py:26-31`). So every request to that view shares the one instance and its per-request fields (`output`, `page_num`, `paginate_qs`, `paginator`, `page`, `pages`; `ninjapaginator/util.py:37-54`). `digg_style` and `filmfeed_style` read those fields back (`ninjapaginator/util.py:59-89`). On a threaded server one request can overwrite them before another's style method reads them. The model covers one `decorate` call at a time, as one uninterrupted step on the fields.
- Template-library registration (`ninjapaginator/templatetags/paginator.py:5, 8`). This is framework glue.
- Arguments of `page_link` that are neither an integer page number nor a string (or None) for `params`. `%s` would format them with their own `str`, which is outside the model.
- PaginatorTags.Replace: models `str.replace` only for a one-character pattern, because that is the only use in the core (`'&'`).
- `setup.py`. It is packaging metadata.
