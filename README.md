# Observability dashboard widgets: a Dafny model

This project models the view-state logic of the three widgets of a
browser dashboard that watches a download service:

- the **performance sampler** (`PerformanceMetrics`), which times one
  request per tick, keeps the last 20 samples in a sliding window and
  displays a mean latency and a success rate;
- the **download job list** (`DownloadJobList`), which checks whether a
  file is available and initiates a download, recording a locally built
  `pending` job at the front of an in-memory list;
- the **health poller** (`HealthStatus`), a small state machine over the
  latest health snapshot, a loading flag, an error string and the time of
  the last successful check.

Network calls are not performed. Each widget's operation takes the
*outcome* of its calls as input (module `Fetch`): `fetch` either resolves
with a status or throws a value, and `response.json()` either yields a
decoded body or throws. A thrown value is an `Error` object with a name and
a message (an abort is an `Error` named `AbortError`) or some other value.
Clock readings, the time label of a sample, the measured latency and the
rendered file size are also inputs.

Each widget is a class whose fields are the component's state cells. Its
methods update them step by step as the source does. Each class has a
`View()`, a datatype snapshot of its fields. Each method is proved to
leave `View()` equal to a pure transition function of the old snapshot
(`AfterMeasure`, `AfterPoll`, `AfterCheck`, `AfterInitiate`). The
properties the source promises are stated on those functions and in
lemmas about runs of several operations.

Two facts about the code shape the model:

- The statistics are derived from `[...metrics, newDataPoint].slice(-20)`,
  where `metrics` is the value the running callback closed over; the
  stored window cell is updated separately from its own previous value.
  The interval callback is created on mount, so that captured value is the
  empty mount-time window. `Sampler.MeasurePerformance` takes the captured
  value as an explicit input, and `MountClosureStatistics` shows the
  consequence: the displayed statistics describe the newest sample alone.
- A new download job goes to the front of the job list.

## Model

| member | source | states |
|---|---|---|
| PerformanceMetrics.Recent | frontend/src/components/PerformanceMetrics.tsx:46 | `slice(-20)` keeps min(n, 20) elements, and they are the last ones of the input |
| PerformanceMetrics.Window | frontend/src/components/PerformanceMetrics.tsx:43-47 | inserting a sample leaves at most 20; the new sample is last; the earlier ones are the newest of the old window, in order; fewer than 20 before means nothing is evicted (`prev + [p]`); exactly 20 before means exactly the oldest is dropped (`prev[1..] + [p]`) |
| PerformanceMetrics.WindowsAreRecent | frontend/src/components/PerformanceMetrics.tsx:43-47 | after any non-empty run of inserts, the window is exactly the newest 20 of all samples seen, so eviction is oldest-first |
| PerformanceMetrics.RecentOfRecent | frontend/src/components/PerformanceMetrics.tsx:46 | trimming to the last 20 and then appending and trimming again is the same as trimming once at the end |
| PerformanceMetrics.TotalResponseTime | frontend/src/components/PerformanceMetrics.tsx:52 | the `reduce` sum of response times: 0 for no samples, and at least every single latency in the sequence |
| PerformanceMetrics.SuccessCount | frontend/src/components/PerformanceMetrics.tsx:55 | the number of successful samples is at most the sample count; it equals the count exactly when all succeeded, and is 0 exactly when none did |
| PerformanceMetrics.RoundHalfUp | frontend/src/components/PerformanceMetrics.tsx:51-56 | `Math.round(a/b)` for a ≥ 0, b > 0 is the integer r with r - 1/2 ≤ a/b < r + 1/2 |
| PerformanceMetrics.MeanResponseTime | frontend/src/components/PerformanceMetrics.tsx:50-54 | the displayed mean is the rounded mean of the response times of the (never empty) sequence; it lies between any lower and upper bound of those times |
| PerformanceMetrics.TotalResponseTimeBounded | frontend/src/components/PerformanceMetrics.tsx:52 | a sum of n response times that each lie in [lo, hi] lies in [lo·n, hi·n] |
| PerformanceMetrics.SuccessRate | frontend/src/components/PerformanceMetrics.tsx:55-56 | the displayed rate is the rounded percentage of successful samples; it lies in [0, 100]; for at most 20 samples it is 100 exactly when all succeeded and 0 exactly when none did |
| PerformanceMetrics.Initial | frontend/src/components/PerformanceMetrics.tsx:26-28 | mount state: empty window, mean 0, success rate 100 |
| PerformanceMetrics.AfterMeasure | frontend/src/components/PerformanceMetrics.tsx:30-68 | a resolved fetch inserts a sample with the measured latency and `response.ok`, then sets the mean and the rate of the captured window plus that sample; a thrown fetch inserts a sample with latency 0 and failure, and leaves both statistics unchanged; the window stays at most 20 and the rate at most 100 on both paths |
| PerformanceMetrics.Sampler.constructor | frontend/src/components/PerformanceMetrics.tsx:26-28 | the fields start in the mount state |
| PerformanceMetrics.Sampler.MeasurePerformance | frontend/src/components/PerformanceMetrics.tsx:30-68 | the window update and, on success, the two statistics updates produce exactly `AfterMeasure` of the old state, keeping the window at most 20 |
| PerformanceMetrics.MountClosureStatistics | frontend/src/components/PerformanceMetrics.tsx:50-73 | with the mount-time (empty) captured window, the displayed mean is the newest latency and the rate is 100 or 0 |
| HealthStatus.Initial | frontend/src/components/HealthStatus.tsx:16-19 | mount state: no snapshot, loading, no error, checked at mount time |
| HealthStatus.IsHealthy | frontend/src/components/HealthStatus.tsx:57-60 | healthy exactly when status is "healthy" and the storage check is "ok"; false without a snapshot |
| HealthStatus.PollThrows | frontend/src/components/HealthStatus.tsx:22-37 | the try block completes exactly when the fetch resolves with an ok status and the body decodes; a non-ok status throws `Error("HTTP <status>")` |
| HealthStatus.CatchMessage | frontend/src/components/HealthStatus.tsx:38-45 | an `AbortError` records exactly "Request timeout"; anything else records the error's message, or "Unknown error" for a non-Error |
| HealthStatus.AfterPoll | frontend/src/components/HealthStatus.tsx:21-49 | loading always ends off; the error is cleared exactly on success; success replaces the snapshot with the body and sets the check time; every failure keeps the old snapshot and check time; abort gives "Request timeout", a non-ok status "HTTP <status>", a thrown fetch or decoding its catch message |
| HealthStatus.DistinctStatusesGiveDistinctErrors | frontend/src/components/HealthStatus.tsx:31-32 | polls failing on two different non-ok statuses record different errors, neither of them the timeout error |
| HealthStatus.LastSuccess | frontend/src/components/HealthStatus.tsx:34-37 | finds the last successful poll of a run: it succeeded and no later poll did, or none succeeded |
| HealthStatus.AfterPollsSnoc | frontend/src/components/HealthStatus.tsx:21-49 | running polls one more at a time is running the last poll on the state after the others |
| HealthStatus.AfterPollsShowsLastSuccess | frontend/src/components/HealthStatus.tsx:34-47 | after any run of polls, the snapshot and check time are those of the last successful poll (or unchanged if none succeeded), and loading is off once a poll has completed |
| HealthStatus.HealthPoller.constructor | frontend/src/components/HealthStatus.tsx:16-19 | the fields start in the mount state |
| HealthStatus.HealthPoller.FetchHealth | frontend/src/components/HealthStatus.tsx:21-49 | the try/catch/finally updates of the four fields produce exactly `AfterPoll` of the old state |
| DownloadJobList.Initial | frontend/src/components/DownloadJobList.tsx:19-22 | mount state: no jobs, file id 70000, not loading, no message |
| DownloadJobList.StatusName | frontend/src/components/DownloadJobList.tsx:11 | each job status has one of the four labels of the status union, and distinct statuses have distinct labels |
| DownloadJobList.StatusColor | frontend/src/components/DownloadJobList.tsx:139-150 | total: completed→success, failed→error, processing→warning, anything else→info, each in both directions |
| DownloadJobList.StatusColors | frontend/src/components/DownloadJobList.tsx:139-150 | each of the four job statuses gets its colour; pending shows as info |
| DownloadJobList.FailureDetail | frontend/src/components/DownloadJobList.tsx:39-56 | a call fails unless fetch resolves, the body decodes and the status is ok; the detail is the thrown message, or the server's truthy `message`, or "Request failed" |
| DownloadJobList.AfterCheck | frontend/src/components/DownloadJobList.tsx:24-60 | never touches jobs or the field; an empty field changes nothing; otherwise loading ends off and the message reports availability on success or is "❌ Error: " plus the failure detail |
| DownloadJobList.JobId | frontend/src/components/DownloadJobList.tsx:81 | the server's `job_id` when truthy, else `job_<now>` |
| DownloadJobList.NewJob | frontend/src/components/DownloadJobList.tsx:80-85 | the recorded job is pending, for the given file id, created at the given time, with no completion time, download URL or error |
| DownloadJobList.AfterInitiate | frontend/src/components/DownloadJobList.tsx:62-101 | an empty field changes nothing; success puts exactly one new pending job in front of the unchanged old list and names it in the message; failure keeps the list and sets "❌ Error: " plus the failure detail; loading ends off |
| DownloadJobList.JobsAreReverseChronological | frontend/src/components/DownloadJobList.tsx:86 | over any mix of field edits, checks and initiations the list is the recorded jobs newest first (each for the id the field held when it was initiated) followed by the original jobs; it grows by at most one job per interaction and never shrinks, reorders or changes a job; only edits change the field |
| DownloadJobList.DownloadJobs.constructor | frontend/src/components/DownloadJobList.tsx:19-22 | the fields start in the mount state |
| DownloadJobList.DownloadJobs.SetFileId | frontend/src/components/DownloadJobList.tsx:160 | editing the field changes only the field |
| DownloadJobList.DownloadJobs.CheckFileAvailability | frontend/src/components/DownloadJobList.tsx:24-60 | the guarded sequence of field updates produces exactly `AfterCheck` of the old state |
| DownloadJobList.DownloadJobs.InitiateDownload | frontend/src/components/DownloadJobList.tsx:62-101 | the guarded sequence of field updates produces exactly `AfterInitiate` of the old state |
| Fetch.Ok | frontend/src/components/PerformanceMetrics.tsx:40 | `response.ok` holds exactly for the 2xx statuses |
| Fetch.ThrownMessage | frontend/src/components/HealthStatus.tsx:42 | an `Error` gives its message; any other thrown value gives "Unknown error" |
| Fetch.Truthy | frontend/src/components/DownloadJobList.tsx:81 | an optional string field is truthy exactly when present and non-empty |
| Fetch.OrElse | frontend/src/components/DownloadJobList.tsx:48 | `s \|\| fallback` gives `s` when truthy and the fallback otherwise, so it is empty only if the fallback is |
| Decimal.NatToString | frontend/src/components/HealthStatus.tsx:32 | the decimal rendering of a number is a non-empty digit string with no leading zero |
| Decimal.ValueOfNatToString | frontend/src/components/HealthStatus.tsx:32 | reading the rendering back gives the number |
| Decimal.NatToStringInjective | frontend/src/components/HealthStatus.tsx:32 | different statuses (or ids, or clock readings) render differently |

## Left out

- `fetch`, `response.json()`, request bodies and URLs are network I/O. They are replaced by the outcome inputs of module `Fetch`.
- The `AbortController`, the 5000 ms timeout and `clearTimeout` are timers. Only the resulting `AbortError` is modelled.
- The `setInterval` polling of both pollers, their first call on mount, and teardown on unmount are timers and scheduling, so they are left out.
- Overlapping ticks and React's batched, asynchronous `setState` are concurrency and framework behaviour. Each operation runs to completion as one step. The `loading = true` state seen while a download request is awaited is not a separate state of the model.
- React's closure capture is not modelled. `Sampler.MeasurePerformance` takes the captured `metrics` as an input instead.
- `performance.now()` timing is left out. The latency is an input already rounded to a natural number.
- Floating-point arithmetic is modelled as exact rationals. `Math.round` of `sum/len` and of `(count/len)*100` becomes round-half-up on integers. For at most 20 samples the float results agree with this:
  - A tie in the mean means sum/len = k + 1/2. The float division returns that value exactly while the sum stays below 2^53.
  - A tie in the rate needs count/len to reduce to c/8. That fraction is exact in binary, so multiplying by 100 is exact too.
  - Every other value lies at least 1/40 from a tie. That is far beyond the float error of one division and one multiplication.
- `Date`, `toISOString`, `toLocaleTimeString` and `Date.now()` are clock and locale formatting. Timestamps are opaque inputs: a natural number, or a string supplied by the caller.
- `parseInt` is left out. The file-id field is an already-parsed natural number or `Empty`. Other non-empty text such as `-5` or `.5` is not modelled. It passes the empty-field guard, and `parseInt` turns it into -5 or NaN, which then goes out as `file_id`. The source puts the raw field text in its messages; the model puts the canonical decimal text there. Field text such as `007` is therefore not modelled.
- JSON bodies carry only the fields the widgets read. A `job_id` or `message` that is present but not a string is not modelled, and neither is a `null` or non-object health body.
- `formatBytes` relies on float logarithms and rounding. It is a function parameter of `AfterCheck`.
- `testSentryError` and every `Sentry.captureException` call are an external monitoring side effect, so they are left out.
- JSX rendering is left out, including the `✅` test that picks the message box style.
- `frontend/src/App.tsx` (a default-URL fallback and static links) and `frontend/src/main.tsx` (Sentry setup and DOM mounting) are not part of this model.
- Decimal.NatToString: renders as a JavaScript template does only for numbers below 10^21. Larger numbers use exponent notation, which is not modelled.
