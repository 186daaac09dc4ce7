# Wedding planner backend: vendors, bookings, weddings and reviews in Dafny

This project models the core of the Java backend of a wedding-planning application, and
proves properties of that model. The core covered is:

- **The vendor list.** A hand-written singly linked list of vendors, with `head`, `size`,
  append, remove-first-by-id, lookup and array conversion.
- **Two sorts.**
  - The recursive merge sort relinks vendor nodes by rating, highest first.
  - The "bubble" sort swaps vendors between nodes to order them by base price.
- **Vendor holders and the vendor profile.**
  - The list-backed vendor collection.
  - The wedding task list.
  - The vendor profile:
    - approval status;
    - image URLs;
    - social-media links.
- **Three mutable entities.**
  - A booking and its payment bookkeeping.
  - A wedding with its shared task list and request/entity conversion.
  - A bookable service and its cost rule.
- **Two services.**
  - The vendor search.
  - The review service, whose updates recompute a vendor's average rating.
- **The user-role parser.**

Java objects whose fields the source updates in place are Dafny classes with `modifies`
frames:

- the linked list and its nodes;
- `Vendor`, `VendorCollection`, `TaskList`, `Booking`, `Wedding` (with its task list), `Service`;
- the two services, whose repositories are sequences held as fields.

The vendors that the collections, sorts and services hold are values (`VendorRecord`).

The loops of the source are `while` or `for` loops with invariants. Each is proved against a
pure function of the old state:

| Loop | Function it is proved against |
|---|---|
| the linked-list walks | `Contents()` |
| the bubble sort | `ExchangeSort`, which spells out the nested loops |
| the merge sort | `Sorting.MergeSort` over (node, vendor) entries |
| the pending-task loop | `Filter` |
| the keyword loop | `Filter` |
| the rating sum | `RatingSum` |

The properties the source promises are then lemmas about those functions:

- sortedness;
- permutation;
- stability;
- "first match";
- the mean rating;
- the pricing cases.

Null is `Option.None`. Every Java `double` is a Dafny `real`.

Three behaviours of the code are worth stating outright:

- **`getVendorById` with duplicate ids.** The linked list answers the first vendor with the id,
  not the most recently inserted one.
  `VendorCollection.findVendorById` does the same.
  `removeVendor` on the list removes only that first one.
  Duplicate ids are allowed, as the code does not prevent them.
- **`sortByPrice`.** It is not an adjacent-swap bubble sort with early exit. It compares each node
  with every later node and swaps payloads when the later one should come first: an exchange
  sort. It is not stable: `ExchangeSortIsNotStable` gives three vendors whose equal prices come
  out in reversed order.
- **Vendor ratings.** They are not updated in place. `updateVendorRating` removes the vendor
  record and appends a re-rated copy. The vendor therefore moves to the end of the store (see
  `Reviews.ReratedSetsMean`).

## Model

| member | source | states |
|---|---|---|
| VendorList.VendorNode.constructor | backend/src/main/java/com/se1020/backend/util/dsa/VendorNode.java:11-14 | a new node holds the vendor and has no successor |
| VendorList.VendorLinkedList.constructor | backend/src/main/java/com/se1020/backend/util/dsa/VendorLinkedList.java:16-19 | a new list is empty: head null, size 0 |
| VendorList.VendorLinkedList.GetHead | backend/src/main/java/com/se1020/backend/util/dsa/VendorLinkedList.java:21-23 | the head is null exactly for an empty list, else the first node holding the first vendor |
| VendorList.VendorLinkedList.GetSize | backend/src/main/java/com/se1020/backend/util/dsa/VendorLinkedList.java:25-27 | size is the number of vendors reachable from head |
| VendorList.VendorLinkedList.AddVendor | backend/src/main/java/com/se1020/backend/util/dsa/VendorLinkedList.java:29-41 | appends the vendor in a new last node, earlier nodes kept, size one larger, invariant kept |
| VendorList.VendorLinkedList.RemoveVendor | backend/src/main/java/com/se1020/backend/util/dsa/VendorLinkedList.java:43-63 | the contents lose exactly their first vendor with the id (nothing for an empty list or an absent id); size follows; invariant kept |
| VendorList.VendorLinkedList.Predecessor | backend/src/main/java/com/se1020/backend/util/dsa/VendorLinkedList.java:54-57 | the walk stops at the last node before the first match (or at the tail), passing no match |
| VendorList.VendorLinkedList.RemoveHead | backend/src/main/java/com/se1020/backend/util/dsa/VendorLinkedList.java:48-51 | a matching head is dropped: the contents become their tail |
| VendorList.VendorLinkedList.UnlinkAfter | backend/src/main/java/com/se1020/backend/util/dsa/VendorLinkedList.java:59-62 | bypassing the successor drops exactly that vendor from the contents |
| VendorList.VendorLinkedList.GetVendorById | backend/src/main/java/com/se1020/backend/util/dsa/VendorLinkedList.java:65-74 | answers the first vendor with the id, or None, without changing the list |
| VendorList.VendorLinkedList.ToArray | backend/src/main/java/com/se1020/backend/util/dsa/VendorLinkedList.java:100-109 | a new array of length size holding the vendors in list order |
| VendorList.RemoveVendorDropsOne | backend/src/main/java/com/se1020/backend/util/dsa/VendorLinkedList.java:43-63 | removal takes one occurrence of the matched vendor out of the multiset; size drops by one; later vendors with the same id stay |
| VendorSorting.GetMiddle | backend/src/main/java/com/se1020/backend/util/VendorSorter.java:38-50 | the slow/fast walk stops at index (n-1)/2 of an n-node chain |
| VendorSorting.Cut | backend/src/main/java/com/se1020/backend/util/VendorSorter.java:10-12 | cutting after the middle leaves two chains, the first n/2 rounded up nodes and the rest |
| VendorSorting.MergeNodes | backend/src/main/java/com/se1020/backend/util/VendorSorter.java:20-36 | relinking two chains yields the chain of Merge of their entries, left first on equal ratings |
| VendorSorting.MergeSortNodes | backend/src/main/java/com/se1020/backend/util/VendorSorter.java:5-18 | the result chain is MergeSort of the entries; each node keeps its own vendor; a null or one-node list comes back as given |
| VendorSorting.SortHalves | backend/src/main/java/com/se1020/backend/util/VendorSorter.java:14-15 | both halves are sorted independently and stay disjoint |
| VendorSorting.SortLeft | backend/src/main/java/com/se1020/backend/util/VendorSorter.java:14 | sorting the left half leaves the right chain and its vendors untouched |
| VendorSorting.EntryGeIsTotalPreorder | backend/src/main/java/com/se1020/backend/util/VendorSorter.java:27 | the `>=` rating test is a total preorder, so the merge sort is a stable sort |
| VendorSorting.MergeByRating | backend/src/main/java/com/se1020/backend/util/VendorSorter.java:20-36 | merging two rating-descending lists gives a rating-descending list of all their entries, length the sum of both |
| VendorSorting.MergeSortByRating | backend/src/main/java/com/se1020/backend/util/VendorSorter.java:5-36 | the sort is a permutation, rating non-increasing, and its vendors are the stable rating sort of the input's |
| VendorSorting.MergeSortKeepsTies | backend/src/main/java/com/se1020/backend/util/VendorSorter.java:27 | vendors of equal rating keep their input order |
| Sorting.MergeSortIsStableSort | backend/src/main/java/com/se1020/backend/util/VendorSorter.java:5-36 | for a total preorder, the merge sort is a permutation, sorted, and keeps the order within each class of equal keys |
| Sorting.StableSortsAgree | backend/src/main/java/com/se1020/backend/model/VendorCollection.java:65-69 | two stable sorts of the same list by the same total preorder are equal |
| Sorting.MergeSortMap | backend/src/main/java/com/se1020/backend/util/VendorSorter.java:27 | sorting entries by their vendors' rating and then projecting equals sorting the vendors |
| VendorBubbleSorting.SwapVendors | backend/src/main/java/com/se1020/backend/util/dsa/VendorBubbleSorter.java:20-25 | swapping two nodes' vendors swaps those two positions of the contents |
| VendorBubbleSorting.SortByPrice | backend/src/main/java/com/se1020/backend/util/dsa/VendorBubbleSorter.java:8-32 | returns the same list; null or empty comes back untouched; nodes, head and size are unchanged; contents become ExchangeSort of the old contents |
| VendorBubbleSorting.PlaceExtreme | backend/src/main/java/com/se1020/backend/util/dsa/VendorBubbleSorter.java:15-27 | the inner loop turns the contents into Inner, the pure form of that loop |
| VendorBubbleSorting.SwapPermutes | backend/src/main/java/com/se1020/backend/util/dsa/VendorBubbleSorter.java:20-25 | a swap keeps the multiset of vendors |
| VendorBubbleSorting.InnerKeeps | backend/src/main/java/com/se1020/backend/util/dsa/VendorBubbleSorter.java:15-27 | the inner loop leaves earlier positions alone and permutes the rest |
| VendorBubbleSorting.InnerSelects | backend/src/main/java/com/se1020/backend/util/dsa/VendorBubbleSorter.java:15-28 | after the inner loop, `current` holds the minimum (ascending) or maximum (descending) price of itself and all later nodes |
| VendorBubbleSorting.InnerSettles | backend/src/main/java/com/se1020/backend/util/dsa/VendorBubbleSorter.java:14-28 | each outer step extends the settled, ordered prefix by one |
| VendorBubbleSorting.OuterSettles | backend/src/main/java/com/se1020/backend/util/dsa/VendorBubbleSorter.java:13-29 | the outer loop from a settled prefix orders the whole list and permutes it |
| VendorBubbleSorting.ExchangeSortSorts | backend/src/main/java/com/se1020/backend/util/dsa/VendorBubbleSorter.java:13-29 | the result is a permutation, prices non-decreasing (ascending) or non-increasing (descending) |
| VendorBubbleSorting.ExchangeSortPrices | backend/src/main/java/com/se1020/backend/util/dsa/VendorBubbleSorter.java:13-29 | the price order stated pointwise for both directions |
| VendorBubbleSorting.InnerOnSorted | backend/src/main/java/com/se1020/backend/util/dsa/VendorBubbleSorter.java:17-18 | the strict comparison never swaps when `current` already comes first |
| VendorBubbleSorting.OuterOnSorted | backend/src/main/java/com/se1020/backend/util/dsa/VendorBubbleSorter.java:13-29 | on an ordered list the outer loop changes nothing |
| VendorBubbleSorting.ExchangeSortKeepsSorted | backend/src/main/java/com/se1020/backend/util/dsa/VendorBubbleSorter.java:17-18 | an already ordered list, ties included, is left exactly as it is |
| VendorBubbleSorting.ExchangeSortIdempotent | backend/src/main/java/com/se1020/backend/util/dsa/VendorBubbleSorter.java:13-29 | sorting twice is sorting once |
| VendorBubbleSorting.ExchangeSortIsNotStable | backend/src/main/java/com/se1020/backend/util/dsa/VendorBubbleSorter.java:17-25 | [A 2, B 2, C 1] ascending becomes [C 1, B 2, A 2]: equal prices can change order |
| VendorModel.SortByRatingDescending | backend/src/main/java/com/se1020/backend/model/VendorCollection.java:56-60 | a permutation, rating non-increasing, equal ratings in input order |
| VendorModel.RatingSortIsUnique | backend/src/main/java/com/se1020/backend/service/VendorService.java:114-119 | every permutation that is rating-descending and stable on ties is that sort |
| VendorModel.AfterSetApproved | backend/src/main/java/com/se1020/backend/model/Vendor.java:102-108 | approving gives APPROVED; withdrawing never leaves APPROVED and keeps any other status |
| VendorModel.AfterSetRejected | backend/src/main/java/com/se1020/backend/model/Vendor.java:114-120 | rejecting gives REJECTED; withdrawing never leaves REJECTED and keeps any other status |
| VendorModel.StatusSettersKeepKnown | backend/src/main/java/com/se1020/backend/model/Vendor.java:102-120 | both setters keep the status among PENDING, APPROVED, REJECTED |
| VendorModel.RejectionSequence | backend/src/main/java/com/se1020/backend/model/Vendor.java:102-120 | setApproved(false) then setRejected(true) ends in REJECTED from any status |
| VendorModel.ApproveThenWithdraw | backend/src/main/java/com/se1020/backend/model/Vendor.java:102-108 | setApproved(true) then setApproved(false) ends in PENDING from any status, so an earlier REJECTED is lost |
| VendorModel.RejectThenWithdraw | backend/src/main/java/com/se1020/backend/model/Vendor.java:114-120 | setRejected(true) then setRejected(false) ends in PENDING from any status, so an earlier APPROVED is lost |
| VendorModel.StatusSettersIdempotent | backend/src/main/java/com/se1020/backend/model/Vendor.java:102-120 | calling either setter twice with the same flag is calling it once |
| VendorModel.Vendor.constructor | backend/src/main/java/com/se1020/backend/model/Vendor.java:23-48 | a new vendor is PENDING, rating 0, base price 0, with empty availability, images and links |
| VendorModel.Vendor.ApprovedAndRejectedExclusive | backend/src/main/java/com/se1020/backend/model/Vendor.java:98-112 | a vendor is never approved and rejected at once |
| VendorModel.Vendor.SetApproved | backend/src/main/java/com/se1020/backend/model/Vendor.java:102-108 | the status follows AfterSetApproved; isApproved then equals the argument |
| VendorModel.Vendor.SetRejected | backend/src/main/java/com/se1020/backend/model/Vendor.java:114-120 | the status follows AfterSetRejected; isRejected then equals the argument |
| VendorModel.Vendor.AddImageUrl | backend/src/main/java/com/se1020/backend/model/Vendor.java:131-136 | appends the URL, creating the list when null |
| VendorModel.Vendor.RemoveImageUrl | backend/src/main/java/com/se1020/backend/model/Vendor.java:138-142 | drops the first equal URL; a null list stays null |
| VendorModel.RemoveImageUrlDropsFirst | backend/src/main/java/com/se1020/backend/model/Vendor.java:138-142 | exactly the first occurrence goes, the rest keep their order, one fewer copy |
| VendorModel.RemoveAbsentImageUrl | backend/src/main/java/com/se1020/backend/model/Vendor.java:138-142 | removing an absent URL changes nothing |
| VendorModel.Vendor.AddSocialMediaLink | backend/src/main/java/com/se1020/backend/model/Vendor.java:179-184 | sets or overwrites one platform's link, creating the map when null; other platforms unchanged |
| VendorModel.Vendor.RemoveSocialMediaLink | backend/src/main/java/com/se1020/backend/model/Vendor.java:186-190 | deletes one platform's link; a null map stays null |
| VendorCollections.VendorCollection.constructor | backend/src/main/java/com/se1020/backend/model/VendorCollection.java:16-18 | a new collection is empty |
| VendorCollections.VendorCollection.AddVendor | backend/src/main/java/com/se1020/backend/model/VendorCollection.java:23-25 | appends at the end |
| VendorCollections.VendorCollection.RemoveVendor | backend/src/main/java/com/se1020/backend/model/VendorCollection.java:30-32 | keeps exactly the vendors with another id, in order |
| VendorCollections.RemoveVendorRemovesAll | backend/src/main/java/com/se1020/backend/model/VendorCollection.java:30-32 | no vendor with the id remains; every other vendor keeps all its occurrences in order; a lookup then finds nothing |
| VendorCollections.VendorCollection.FindVendorById | backend/src/main/java/com/se1020/backend/model/VendorCollection.java:37-42 | None exactly when no vendor has the id; otherwise the vendor at the first matching position |
| VendorCollections.AddThenFind | backend/src/main/java/com/se1020/backend/model/VendorCollection.java:37-42 | a vendor added under a fresh id is what the lookup finds |
| VendorCollections.VendorCollection.FilterVendors | backend/src/main/java/com/se1020/backend/model/VendorCollection.java:47-51 | an in-order subsequence holding exactly the vendors that satisfy the predicate, each as often as in the collection |
| VendorCollections.FilterVendorsIdempotent | backend/src/main/java/com/se1020/backend/model/VendorCollection.java:47-51 | filtering twice by one predicate is filtering once |
| VendorCollections.VendorCollection.SortByRatingDescending | backend/src/main/java/com/se1020/backend/model/VendorCollection.java:56-60 | a new list that is a permutation, rating non-increasing, stable on ties; the collection is only read |
| VendorCollections.VendorCollection.SortVendors | backend/src/main/java/com/se1020/backend/model/VendorCollection.java:65-69 | for a comparator that is a total preorder, the result is a stable sort by it |
| VendorCollections.SortVendorsIsUnique | backend/src/main/java/com/se1020/backend/model/VendorCollection.java:65-69 | every stable sort by that comparator is the result |
| VendorCollections.VendorCollection.GetAllVendors | backend/src/main/java/com/se1020/backend/model/VendorCollection.java:74-76 | a copy with the same contents, a value that shares nothing with the collection |
| VendorCollections.VendorCollection.GetSize | backend/src/main/java/com/se1020/backend/model/VendorCollection.java:81-83 | the number of vendors held |
| VendorCollections.VendorCollection.Clear | backend/src/main/java/com/se1020/backend/model/VendorCollection.java:88-90 | the collection becomes empty |
| Tasks.TaskList.constructor | backend/src/main/java/com/se1020/backend/util/TaskList.java:10-12 | a new, unshared list object with no tasks |
| Tasks.TaskList.GetTasks | backend/src/main/java/com/se1020/backend/util/TaskList.java:14-16 | hands out the held list object itself, not a copy |
| Tasks.TaskList.SetTasks | backend/src/main/java/com/se1020/backend/util/TaskList.java:18-20 | adopts the caller's list object |
| Tasks.AdoptedListIsShared | backend/src/main/java/com/se1020/backend/util/TaskList.java:18-38 | after setTasks(list), a task the caller adds to list is among the task list's pending tasks when not completed |
| Tasks.TaskList.AddTask | backend/src/main/java/com/se1020/backend/util/TaskList.java:22-24 | appends the task to the held list object |
| Tasks.TaskList.RemoveTask | backend/src/main/java/com/se1020/backend/util/TaskList.java:26-28 | keeps the tasks with another id, in order |
| Tasks.RemoveTaskRemovesAll | backend/src/main/java/com/se1020/backend/util/TaskList.java:26-28 | no task with the id remains; all others keep every occurrence, in order |
| Tasks.TaskList.GetPendingTasks | backend/src/main/java/com/se1020/backend/util/TaskList.java:30-38 | the loop collects Filter(tasks, not completed) and changes nothing |
| Tasks.PendingTasksAreIncomplete | backend/src/main/java/com/se1020/backend/util/TaskList.java:30-38 | exactly the incomplete tasks, each as often as held, in list order |
| Tasks.PendingExtremes | backend/src/main/java/com/se1020/backend/util/TaskList.java:30-38 | all completed gives none; none completed gives all |
| Tasks.AddThenPending | backend/src/main/java/com/se1020/backend/util/TaskList.java:22-38 | a task added is pending exactly when not completed, after the earlier pending ones |
| Bookings.StatusAfterPayment | backend/src/main/java/com/se1020/backend/model/Booking.java:114-118 | paid in full or more gives PAID; a partial positive payment gives PARTIALLY_PAID; otherwise the status stays |
| Bookings.Booking.constructor | backend/src/main/java/com/se1020/backend/model/Booking.java:24-25 | all references null and all amounts 0, so the balance invariant holds |
| Bookings.Booking.Full | backend/src/main/java/com/se1020/backend/model/Booking.java:27-39 | the fields as given, payment PENDING, nothing paid, the whole cost remaining |
| Bookings.Booking.SetTotalCost | backend/src/main/java/com/se1020/backend/model/Booking.java:69-72 | remaining is the new total minus the amount paid; the payment status is not touched |
| Bookings.Booking.SetAmountPaid | backend/src/main/java/com/se1020/backend/model/Booking.java:111-119 | remaining is total minus paid; the status follows StatusAfterPayment; invariant kept |
| Bookings.Booking.ConfirmBooking | backend/src/main/java/com/se1020/backend/model/Booking.java:150-152 | the status becomes CONFIRMED and nothing else changes |
| Bookings.Booking.CancelBooking | backend/src/main/java/com/se1020/backend/model/Booking.java:154-156 | the status becomes CANCELLED and nothing else changes |
| Bookings.OverpaymentIsNotClamped | backend/src/main/java/com/se1020/backend/model/Booking.java:113-115 | paying more than the total leaves a negative balance and PAID |
| Bookings.PaymentIsIdempotent | backend/src/main/java/com/se1020/backend/model/Booking.java:111-119 | recording the same payment twice changes nothing further |
| Bookings.PaymentStatusAfterPositive | backend/src/main/java/com/se1020/backend/model/Booking.java:114-118 | any positive payment leaves PAID or PARTIALLY_PAID, whatever the status was |
| Weddings.StyleOrDefault | backend/src/main/java/com/se1020/backend/model/Wedding.java:77-83 | a given style is kept; null becomes TRADITIONAL |
| Weddings.StyleOrDefaultIdempotent | backend/src/main/java/com/se1020/backend/model/Wedding.java:77-83 | defaulting a stored style again changes nothing |
| Weddings.Wedding.constructor | backend/src/main/java/com/se1020/backend/model/Wedding.java:24-30 | no data, a new empty task list, not a request object |
| Weddings.Wedding.Full | backend/src/main/java/com/se1020/backend/model/Wedding.java:32-39 | the fields as given, the style stored without defaulting, no address, a new empty task list |
| Weddings.Wedding.SetStyle | backend/src/main/java/com/se1020/backend/model/Wedding.java:77-83 | stores the style, TRADITIONAL for null |
| Weddings.Wedding.GetTasks | backend/src/main/java/com/se1020/backend/model/Wedding.java:102-104 | hands out the wedding's own list object |
| Weddings.Wedding.SetTasks | backend/src/main/java/com/se1020/backend/model/Wedding.java:106-108 | adopts the caller's list object |
| Weddings.SharedTaskList | backend/src/main/java/com/se1020/backend/model/Wedding.java:102-113 | once two weddings share a list object, a task added through one is seen by the other |
| Weddings.Wedding.AddTask | backend/src/main/java/com/se1020/backend/model/Wedding.java:111-113 | appends to the task list |
| Weddings.Wedding.RemoveTask | backend/src/main/java/com/se1020/backend/model/Wedding.java:115-117 | keeps the tasks with another id, in order |
| Weddings.Wedding.UpdateBudget | backend/src/main/java/com/se1020/backend/model/Wedding.java:120-122 | sets the budget and nothing else |
| Weddings.Wedding.AsRequestObject | backend/src/main/java/com/se1020/backend/model/Wedding.java:134-137 | sets the flag and returns the same object |
| Weddings.Wedding.IsRequestObject | backend/src/main/java/com/se1020/backend/model/Wedding.java:144-146 | answers the flag |
| Weddings.Wedding.ReplaceTasks | backend/src/main/java/com/se1020/backend/model/Wedding.java:154-159 | same list object, now holding the argument's tasks in order; empty for null, and also empty for the wedding's own list |
| Weddings.ReplaceTasksWithOwnList | backend/src/main/java/com/se1020/backend/model/Wedding.java:154-159 | replaceTasks(getTasks()) leaves no tasks |
| Weddings.Wedding.ToEntity | backend/src/main/java/com/se1020/backend/model/Wedding.java:167-182 | an entity returns itself; a request object yields a new entity with id, couple, date, location, defaulted style, budget and a copy of the tasks in a new list, but no address |
| Weddings.ToEntityIsIdempotent | backend/src/main/java/com/se1020/backend/model/Wedding.java:167-182 | the entity obtained is not a request object, so converting it again returns it |
| Services.Wrap32 | backend/src/main/java/com/se1020/backend/model/Service.java:95 | the Java int product: congruent modulo 2^32, unchanged when in range |
| Services.Cost | backend/src/main/java/com/se1020/backend/model/Service.java:87-106 | base price, plus 50 per hour for photography and 25 per guest for catering when the property is present |
| Services.Lookup | backend/src/main/java/com/se1020/backend/model/Service.java:82-84 | the stored value, or None exactly when the key is absent |
| Services.Service.constructor | backend/src/main/java/com/se1020/backend/model/Service.java:24-29 | the fields as given, no type, no properties |
| Services.Service.SetServiceType | backend/src/main/java/com/se1020/backend/model/Service.java:67-69 | stores the type |
| Services.Service.SetAdditionalProperty | backend/src/main/java/com/se1020/backend/model/Service.java:78-80 | inserts or overwrites one key |
| Services.Service.GetAdditionalProperty | backend/src/main/java/com/se1020/backend/model/Service.java:82-84 | the stored value, or None when absent |
| Services.SetThenGet | backend/src/main/java/com/se1020/backend/model/Service.java:77-84 | a get after a put answers the new value; other keys answer as before |
| Services.Service.CalculateCost | backend/src/main/java/com/se1020/backend/model/Service.java:87-106 | the cost as written, with the int product; the intended cost whenever counts fit; no field changes |
| Services.ForSmallCountsNoWrap | backend/src/main/java/com/se1020/backend/model/Service.java:91-103 | the written and the intended cost agree when the surcharge fits in an int |
| Services.OtherTypesCostBasePrice | backend/src/main/java/com/se1020/backend/model/Service.java:88-105 | a type other than photography or catering costs exactly the base price |
| Services.CostReadsOnlyItsKey | backend/src/main/java/com/se1020/backend/model/Service.java:91-103 | any property other than the type's own key leaves the cost alone |
| Services.SurchargesAreIndependent | backend/src/main/java/com/se1020/backend/model/Service.java:91-103 | photography ignores "guestCount"; catering ignores "hours" |
| Services.CostIsMonotone | backend/src/main/java/com/se1020/backend/model/Service.java:91-103 | with the intended arithmetic, more hours or guests never cost less, nor less than the base price |
| Services.HourlySurchargeWraps | backend/src/main/java/com/se1020/backend/model/Service.java:95 | 42949673 hours cost -2147483646 as written, less than one hour does |
| Text.Upper | backend/src/main/java/com/se1020/backend/enums/UserRole.java:17 | same length, each character upper-cased |
| Text.Lower | backend/src/main/java/com/se1020/backend/service/VendorService.java:92-94 | same length, each character lower-cased |
| Text.ContainsIffOccurs | backend/src/main/java/com/se1020/backend/service/VendorService.java:93-94 | `contains` holds exactly when the substring occurs at some position |
| Text.ContainsEmpty | backend/src/main/java/com/se1020/backend/service/VendorService.java:93-94 | every string contains the empty string |
| Text.CaseMappingIdempotent | backend/src/main/java/com/se1020/backend/service/VendorService.java:92 | case mapping twice is case mapping once |
| VendorSearch.VendorService.constructor | backend/src/main/java/com/se1020/backend/service/VendorService.java:21-25 | the vendor and service stores as given |
| VendorSearch.ApplyStage | backend/src/main/java/com/se1020/backend/service/VendorService.java:55-82 | a stream stage filters when its criterion is present; an absent one passes everything |
| VendorSearch.StageOff | backend/src/main/java/com/se1020/backend/service/VendorService.java:55-85 | a stage that passes everything keeps the list |
| VendorSearch.StagesCompose | backend/src/main/java/com/se1020/backend/service/VendorService.java:51-108 | the five stages in sequence select what their conjunction selects |
| VendorSearch.KeywordFilter | backend/src/main/java/com/se1020/backend/service/VendorService.java:85-106 | the nested loop with its break keeps, in order, the vendors that some keyword matches |
| VendorSearch.VendorService.SearchVendors | backend/src/main/java/com/se1020/backend/service/VendorService.java:50-109 | the result is the repository filtered by every given criterion |
| VendorSearch.MatchesIsSelected | backend/src/main/java/com/se1020/backend/service/VendorService.java:55-106 | passing the stages means: equal type, rating within both inclusive bounds, the date in the availability list, some keyword in a name |
| VendorSearch.SearchSelectsExactly | backend/src/main/java/com/se1020/backend/service/VendorService.java:50-109 | an in-order subsequence holding exactly the repository vendors that pass, each with all its occurrences |
| VendorSearch.NoCriteriaKeepsAll | backend/src/main/java/com/se1020/backend/service/VendorService.java:55-85 | all-null criteria, or an empty keyword list with the rest null, return every vendor |
| VendorSearch.SearchIgnoresLocationAndPrice | backend/src/main/java/com/se1020/backend/service/VendorService.java:50-109 | location and price bounds do not change the search |
| VendorSearch.NamelessVendorMatchesNoKeyword | backend/src/main/java/com/se1020/backend/service/VendorService.java:93-94 | null names never match |
| VendorSearch.KeywordsIgnoreCase | backend/src/main/java/com/se1020/backend/service/VendorService.java:92-94 | a keyword matches whatever its case; the empty keyword matches any present name |
| VendorSearch.VendorService.GetVendorsSortedByRating | backend/src/main/java/com/se1020/backend/service/VendorService.java:114-119 | a permutation of the vendors, rating non-increasing, stable on ties |
| VendorSearch.VendorService.GetVendorsByPriceRange | backend/src/main/java/com/se1020/backend/service/VendorService.java:124-145 | always empty: no vendor id is ever recorded |
| Reviews.WithDefaults | backend/src/main/java/com/se1020/backend/service/ReviewService.java:42-49 | a fresh id only for a null or empty id, a date only for a null date; every other field kept |
| Reviews.TotalRating | backend/src/main/java/com/se1020/backend/service/ReviewService.java:89-92 | the loop sums the ratings |
| Reviews.ReviewService.constructor | backend/src/main/java/com/se1020/backend/service/ReviewService.java:18-22 | the review and vendor stores as given |
| Reviews.ReviewService.UpdateVendorRating | backend/src/main/java/com/se1020/backend/service/ReviewService.java:81-101 | the vendor store becomes Rerated of the old one; the reviews are unchanged |
| Reviews.ReviewService.CreateReview | backend/src/main/java/com/se1020/backend/service/ReviewService.java:40-58 | stores the defaulted review at the end and re-rates its vendor |
| Reviews.ReviewService.UpdateReview | backend/src/main/java/com/se1020/backend/service/ReviewService.java:60-65 | replaces the reviews of that id by this one, at the end, and re-rates its vendor |
| Reviews.ReviewService.DeleteReview | backend/src/main/java/com/se1020/backend/service/ReviewService.java:67-76 | an unknown id changes nothing; otherwise removes the reviews of that id and re-rates the first one's vendor |
| Reviews.RatingSumBounds | backend/src/main/java/com/se1020/backend/service/ReviewService.java:89-92 | bounded ratings give a sum bounded by count times the bounds |
| Reviews.MeanBounds | backend/src/main/java/com/se1020/backend/service/ReviewService.java:93 | the average lies between the lowest and the highest allowed rating |
| Reviews.NoReviewsKeepRating | backend/src/main/java/com/se1020/backend/service/ReviewService.java:84-86 | a vendor with no reviews (after its last one is deleted, say) keeps its rating |
| Reviews.UnknownVendorUnchanged | backend/src/main/java/com/se1020/backend/service/ReviewService.java:96-100 | an unknown vendor id updates no vendor |
| Reviews.ReratedSetsMean | backend/src/main/java/com/se1020/backend/service/ReviewService.java:88-100 | for a vendor with reviews and a unique id, the store gets it back, at the end, with the mean rating of its stored reviews; a lookup then finds that rating |
| Reviews.ReratedKeepsOthers | backend/src/main/java/com/se1020/backend/service/ReviewService.java:96-100 | the store keeps its size and every other vendor's record |
| UserRoles.Name | backend/src/main/java/com/se1020/backend/enums/UserRole.java:6-8 | each role's name is non-empty upper case |
| UserRoles.ValueOf | backend/src/main/java/com/se1020/backend/enums/UserRole.java:17-21 | the role with exactly that name, or None where Java throws |
| UserRoles.FromString | backend/src/main/java/com/se1020/backend/enums/UserRole.java:11-23 | null for null; otherwise the role whose name is the upper-cased value, if any |
| UserRoles.FromStringIgnoresCase | backend/src/main/java/com/se1020/backend/enums/UserRole.java:16-17 | values equal up to case parse alike |
| UserRoles.FromStringRoundTrip | backend/src/main/java/com/se1020/backend/enums/UserRole.java:6-17 | every role parses back from its name |
| UserRoles.FromStringRejectsOthers | backend/src/main/java/com/se1020/backend/enums/UserRole.java:18-22 | a string that is no role name in any case gives None, not an exception |
| UserRoles.FromStringLowerCase | backend/src/main/java/com/se1020/backend/enums/UserRole.java:16-17 | "vendor" gives VENDOR |
| UserRoles.FromStringCapitalised | backend/src/main/java/com/se1020/backend/enums/UserRole.java:16-17 | "Vendor" gives VENDOR |
| UserRoles.FromStringNearMiss | backend/src/main/java/com/se1020/backend/enums/UserRole.java:18-22 | "vendors" gives None |

## Left out

- Repositories and file I/O: the JSON files behind every repository, `VendorLinkedList.toJson`/`fromJson` and Jackson. The two services hold their repositories as in-memory sequences.
- Controllers, the web application, `VendorListService` and the pass-through CRUD services: they are outside the core.
- Floating point: ratings, prices, costs and balances are exact reals, so rounding (of the mean rating, say) is not modelled.
- Library and environment calls become parameters or pre-computed values:
  - `UUID.randomUUID()` and `new Date()` in `createReview` are the parameters `freshId` and `now`;
  - the `SimpleDateFormat` output in `searchVendors` is the pre-formatted `availabilityDate`;
  - `Integer.parseInt` in `calculateCost` is replaced by properties held as 32-bit integers, so a non-numeric property (a `NumberFormatException`) is not modelled;
  - the `System.err` message of `fromString` is not modelled.
- Case mapping covers ASCII letters only. Java's `toUpperCase`/`toLowerCase` also map other Unicode letters and depend on the locale.
- Null-pointer exceptions are not modelled:
  - a stored review with a null id matches no id instead of throwing;
  - review vendor ids, keywords and the search criteria object are non-null;
  - `Wedding.setTasks` and `TaskList.setTasks` take a non-null list.
- Vendor object identity: collections, sorts and services hold vendor values. Sharing one `Vendor` object between two lists is not modelled. The `Vendor` class with its status, images and links is modelled on its own.
- `util/VendorNode.java` and `util/dsa/VendorNode.java` share one node class.
- `VendorLinkedList.size` is an unbounded integer: a list of more than 2^31 - 1 nodes does not wrap. Recursion depth of the merge sort (stack overflow) is not modelled.
- `VendorType`, `WeddingStyle` and `BookingStatus` are given assumed constants:
  - `VendorType`, where only PHOTOGRAPHY and CATERING are named;
  - `WeddingStyle`, where only TRADITIONAL is;
  - `BookingStatus`, where only CONFIRMED and CANCELLED are.

  Every other constant is carried by its name.
- Plain getters and setters are not modelled, except the Wedding task-list accessors, `setServiceType` and the ones the core calls. The same goes for the Booking fields `lastPaymentDate`, `paymentMethod` and `transactionId`, and for the empty methods `generateTimeline`, `generateInvoice`, `updateDetails` and `Booking.processPayment`.
- `Service`'s no-argument constructor is not modelled; the four-argument one is.
- `setAmountPaid`/`setTotalCost` with a NaN or infinite amount are not modelled (reals have neither).

## Findings

| source | as written | input that shows it | evidently intended | confidence | as-written member | corrected member |
|---|---|---|---|---|---|---|
| backend/src/main/java/com/se1020/backend/model/Service.java:95 | `hours * 50` (and `guestCount * 25` at line 101) is an `int` product, which wraps modulo 2^32 before it is added to the `double` cost | a photography service with base price 0 and "hours" = 42949673 costs -2147483646 (more hours cost less than one hour) | the surcharge is the exact product, so the cost grows with the count and never drops below the base price for non-negative counts | not executed; the wrap follows from Java's int arithmetic, such counts are unlikely in practice | Services.HourlySurchargeWraps | Services.CostIsMonotone |
