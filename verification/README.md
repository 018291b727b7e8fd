# ChRIS plugin-instance execution tree, in Dafny

This project models the core of the ChRIS backend's plugin-instance graph.
Each plugin instance is one node of a tree. It is linked to its parent through
`previous`, and the reverse relation is `next`. A tree is rooted at a
data-source (`fs`) instance. Its data-step (`ds`) and topology-step (`ts`)
descendants share the root's feed.

The instance table is a map from primary key to an immutable record. Acyclicity
is a ghost rank function: every `previous` link leads to an instance of
strictly smaller rank. This is a sufficient condition for the `while` loops
over `previous` to stop, not a necessary one: a loop stops at the first `fs`
instance or missing parent, whatever cycles exist elsewhere in the table.

Modules:

- `Results`: the `Option` and `Result` wrappers used for nullable columns and raised exceptions.
- `Decimal`: how an id is written into a path, and the `int()` parse of a received id.
- `Instances`: the status choices, the plugin descriptor, the resource limits, the instance and feed records, and `_set_compute_defaults`.
- `Tree`: the root walk (`get_root_instance`), `get_output_path`, `get_descendant_instances` and `filter_by_root_id`.
- `Saving`: `PluginInstance.save` and `_save_feed`.
- `Parameters`: the six typed parameter tables and `get_parameter_instances`.
- `Coordination`: the one-to-one lock table and the ordering of split rows.
- `Validation`: `validate_previous` and the create path built on it.

Calls into code that is not shown are abstracted as follows:

- The database's feed-id sequence is the smallest unused feed key, which is enough because only freshness matters.
- The `CPUInt`/`MemoryInt` values are plain integers.
- Float parameter values are opaque 64-bit words.

## Model

| member | source | states |
|---|---|---|
| `Decimal.ParseIntOfNatToString` | chris_backend/plugininstances/models.py:135-138 | the decimal text written for an id in a path segment parses back to that id, so the segment is exact |
| `Decimal.NatToStringInjective` | chris_backend/plugininstances/models.py:135-138 | distinct ids give distinct text, so segments of different instances never coincide |
| `Instances.StatusChoicesExact` | chris_backend/plugininstances/models.py:23-30 | there are exactly eight status choices, every status is one of them, and their stored values are pairwise distinct |
| `Instances.ParseStatus` | chris_backend/plugininstances/models.py:23-37 | reading a stored status value gives the choice whose value it is, and gives nothing exactly when no choice has that value |
| `Instances.StatusRoundTrip` | chris_backend/plugininstances/models.py:23-37 | every status survives being written to the column and read back |
| `Instances.SetComputeDefaults` | chris_backend/plugininstances/models.py:89-100 | each of the four limits that is falsy (null or zero) becomes the plugin's matching minimum, each truthy limit is kept, and none is left null |
| `Instances.SetComputeDefaultsIdempotent` | chris_backend/plugininstances/models.py:89-100 | applying the defaults twice gives the same limits as applying them once |
| `Tree.RootChain` | chris_backend/plugininstances/models.py:106-108 | the walk follows `previous` from the instance through non-`fs` instances and ends at the first `fs` one; it fails only at a non-`fs` instance without a parent on the lineage, and never fails when every non-`fs` instance has a parent |
| `Tree.RootPathUnique` | chris_backend/plugininstances/models.py:106-108 | any path with the walk's shape is the walk's result, so the shape determines the walk |
| `Tree.RootInstance` | chris_backend/plugininstances/models.py:102-109 | the root is a stored `fs` instance; an `fs` instance is its own root; with every non-`fs` instance parented, a root always exists |
| `Tree.RootIsFirstSourceAncestor` | chris_backend/plugininstances/models.py:102-109 | the root is reached from the instance by following `previous` zero or more times, and no instance before it on the way is `fs` |
| `Tree.RootInstanceIdempotent` | chris_backend/plugininstances/models.py:102-109 | the root of the root is the root |
| `Tree.RootChainIsLineage` | chris_backend/plugininstances/models.py:102-109 | in a well-formed forest the root walk runs the whole chain of parents |
| `Tree.DescendantsShareRoot` | chris_backend/plugininstances/models.py:102-122 | every descendant of an instance has the same root as the instance |
| `Tree.OutputPath` | chris_backend/plugininstances/models.py:124-141 | a path exists exactly when the root exists and has a feed; it starts with `{owner}/feed_{root feed id}` and ends with `/{plugin name}_{id}/data` |
| `Tree.OutputPathOfRoot` | chris_backend/plugininstances/models.py:134-141 | for a root, the path is exactly `{owner}/feed_{feed id}/{plugin name}_{id}/data` |
| `Tree.FeedDirNests` | chris_backend/plugininstances/models.py:136-140 | a child's feed directory is its parent's with the child's own `/{name}_{id}` appended, and the child fails exactly when the parent does |
| `Tree.OutputPathNests` | chris_backend/plugininstances/models.py:131-141 | with the same owner, a child's path is the parent's with the trailing `/data` replaced by `/{name}_{id}/data`; with the root case this gives one segment per instance from root to leaf |
| `Tree.DescendantInstances` | chris_backend/plugininstances/models.py:111-122 | the work list returns the instance first and then every instance whose chain of parents passes through it, each exactly once |
| `Tree.FilterByRootId` | chris_backend/plugininstances/models.py:189-204 | an id outside the query set gives nothing; otherwise the result is all descendants of that instance, each once, taken from the whole table and not only the query set |
| `Tree.ExampleRootPath` | chris_backend/plugininstances/models.py:124-141 | the `dircopy` root 1 of `alice` with feed 1 writes to `alice/feed_1/dircopy_1/data` |
| `Tree.ExampleChildPath` | chris_backend/plugininstances/models.py:124-141 | its `simpledsapp` child 2 writes to `alice/feed_1/dircopy_1/simpledsapp_2/data` |
| `Tree.ExampleRootAndDescendants` | chris_backend/plugininstances/models.py:102-122 | the child's root is 1, and the root's descendants are exactly 1 and 2 |
| `Saving.Save` | chris_backend/plugininstances/models.py:64-87 | an existing feed is never reassigned; an `fs` instance gets a fresh feed named after its title, or its plugin when the title is blank, owned by exactly its owner; a `ds`/`ts` instance takes its parent's feed and fails without a parent; other types fail on the missing feed; only feed and limits change |
| `Saving.SaveIdempotent` | chris_backend/plugininstances/models.py:64-100 | saving an already saved instance again changes neither the instance nor the feed table |
| `Saving.FeedOfRoot` | chris_backend/plugininstances/models.py:69-74 | when every non-`fs` instance is in its parent's feed, every instance is in its root's feed |
| `Saving.SaveKeepsFeedsWithParents` | chris_backend/plugininstances/models.py:69-76 | storing a newly saved instance under an unused key keeps every non-`fs` instance in its parent's feed |
| `Parameters.Bind` | chris_backend/plugininstances/models.py:267-268 | inserting a binding succeeds exactly when the (instance, parameter) pair is unbound, appends exactly that row, and keeps the table unique per pair |
| `Parameters.BindTwiceRefused` | chris_backend/plugininstances/models.py:281-282 | a second binding of the same pair is refused, whatever the values |
| `Parameters.RowsOf` | chris_backend/plugininstances/models.py:149-154 | the rows read for an instance are exactly that instance's rows of the table, as many as the table holds for it, and stay unique per pair |
| `Parameters.ParameterInstances` | chris_backend/plugininstances/models.py:143-155 | the collection has as many rows as the six tables hold for the instance, only that instance's rows, tables in the fixed order unextpath, path, string, integer, float, boolean, and no parameter twice within a table when the tables are unique |
| `Parameters.ParameterInstancesComplete` | chris_backend/plugininstances/models.py:143-155 | every row of the instance in each of the six tables appears in the collection |
| `Coordination.CreateLock` | chris_backend/plugininstances/models.py:207-209 | a lock row is created exactly when the instance holds none, and a second one is refused |
| `Coordination.DeleteLock` | chris_backend/plugininstances/models.py:207-209 | deleting an instance's lock removes it and leaves the other instances' locks alone |
| `Coordination.SecondLockRefused` | chris_backend/plugininstances/models.py:207-209 | of two lock attempts in a row on one instance, the second is refused |
| `Coordination.LockAfterDelete` | chris_backend/plugininstances/models.py:207-209 | after the lock is deleted the instance can be locked again |
| `Coordination.SortSplits` | chris_backend/plugininstances/models.py:222-223 | split rows come in the order of their instances' start dates, latest-started instance first (the instance table's own `-start_date` ordering, models.py:58-59), and rows of instances that started together come newest first; the result is a permutation of the stored rows |
| `Coordination.SplitsOf` | chris_backend/plugininstances/models.py:219-223 | an instance's splits are exactly its rows, each as often as stored, newest first, whatever the start dates |
| `Coordination.RecordedSplitReadBack` | chris_backend/plugininstances/models.py:215-223 | one split recorded on an instance without history reads back as exactly that split |
| `Validation.LookupPrevious` | chris_backend/plugins/serializers.py:65-71 | the lookup succeeds exactly when the text parses to a non-negative key of a stored instance, and returns that key; both failures report the text given |
| `Validation.ValidatePrevious` | chris_backend/plugins/serializers.py:55-72 | for a `ds` plugin: a missing or empty id is "required"; an id that does not parse or names no instance is "couldn't find"; otherwise the stored instance with that key; for any other type the result is no parent whatever the id |
| `Validation.ValidatePreviousFindsRenderedId` | chris_backend/plugins/serializers.py:65-67 | sending the decimal id of any stored instance for a `ds` plugin finds exactly that instance |
| `Validation.TsWithoutPreviousPassesValidation` | chris_backend/plugins/serializers.py:60-72 | a `ts` plugin without an id passes validation with no parent, and the save that follows fails on the missing parent |
| `Validation.ValidatePreviousForSteps` | chris_backend/plugins/serializers.py:61-71 | the corrected check requires and looks up a parent for both `ds` and `ts`, and ignores the id for the others |
| `Validation.CreateInstance` | chris_backend/plugininstances/models.py:64-76 | with the corrected check and all stored instances in a feed, creating an instance of a known type only fails validation; a `ds`/`ts` without an id is refused as "required"; a created instance is `created`, parented exactly when not `fs`, and in its parent's feed |
| `Validation.CreateKeepsForestWellFormed` | chris_backend/plugininstances/models.py:64-76 | storing a created instance under an unused key keeps the forest acyclic, every non-`fs` instance parented, every `fs` instance parentless, and every instance in its parent's feed |

## Left out

- Django ORM persistence is abstracted as map updates: `super().save`, querysets, `.all()`, and cascade and set-null deletion.
- The date, title, owner, feed, plugin and pipeline fields of `PluginInstanceFilter` are library declarations with no logic of their own.
- `PluginInstanceFile` and its filter concern file storage; the hyperlinked serializer fields and the other serializers concern REST representation.
- The two migrations hold schema history only.
- The `DEBUG` debugger import plays no part in the logic.
- `start_date` and `end_date` timestamps are clock values. Listing instances in their default `-start_date` order is not modelled; split rows take the start dates as a parameter.
- `summary`, `raw`, `error_code`, `compute_resource` and `pipeline_inst` are plain columns with no logic. Column `max_length` limits are not modelled.
- `__str__` methods are display only.
- Choices are not enforced by Django's `save()`. The status column is modelled as the eight-value type, and `Instances.ParseStatus` covers reading a raw value.
- `Decimal.ParseInt` does not model the leading or trailing whitespace, digit-group underscores and non-ASCII digits that Python's `int()` also accepts. A `previous_id` sent as a JSON integer is not modelled.
- `Tree.FilterByRootId` takes the filter value as an already parsed key. A non-numeric `root_id` string is not modelled.
- `Tree.DescendantInstances` does not state the order among siblings, because the ORM's ordering of `next` by start date is not modelled. Only the instance itself is pinned to the first position.
- `Coordination.SortSplits`: each instance's start date is a parameter, because `start_date` is a clock value. Rows tied on both start date and creation date may come in any order, as in the database.
- `Tree.RootChain`, `Tree.RootInstance`, `Tree.OutputPath` and `Tree.DescendantInstances` require the whole instance table to be acyclic (`Tree.Ranked`). The code never creates a cycle, because `previous` is set once, to an instance that already exists. A table that holds a cycle away from the walked lineage is not modelled.
- `validate_previous` ignores `previous_id` for every plugin type other than `ds`, so an `fs` instance sent with a parent id is accepted without one. The model does the same in `Validation.ValidatePrevious` and `Validation.ValidatePreviousForSteps`.
- `get_parameter_instances` returns the six tables in a fixed order, and the model states that order. Within a table, the model keeps table order; the ORM's `.all()` promises no order.
- The lock table is only a one-to-one row. Acquiring and releasing it under concurrency is not modelled, and neither are status transitions, which the code leaves to its callers.
- `Saving.Save` does not model that an `fs` instance's feed row stays stored when the instance write that follows it fails.

## Findings

| source | as written | input that shows it | evidently intended | confidence | as-written member | corrected member |
|---|---|---|---|---|---|---|
| chris_backend/plugins/serializers.py:61 | a `previous` id is required and looked up only when the plugin type is `ds` | a `ts` plugin with no `previous` id: validation returns no parent, then `save` reads `previous.feed` on `None` (models.py:73-74) | `ts` instances, which `save` treats exactly like `ds` ones, also need an existing parent and get the "required" error without one | low (the `ts` path may be validated elsewhere); not executed | `Validation.TsWithoutPreviousPassesValidation` (on `Validation.ValidatePrevious`) | `Validation.ValidatePreviousForSteps`, used by `Validation.CreateInstance` and `Validation.CreateKeepsForestWellFormed` |
