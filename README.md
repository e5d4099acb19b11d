# A verified model of the FFmpeg muxing example

`official_examples/muxing.c` is the libavformat example that synthesises one
video stream and one audio stream, encodes them and muxes them into one output
file. This project models the logic the example itself contains. Everything
else in the file is calls into libavcodec, libavformat, libswscale and
libswresample.

- **Timestamps** (`timestamps.dfy`): time bases as rationals.
  - `CompareTs` is the exact comparison `av_compare_ts` performs.
  - It is proved to agree with comparing the instants `ts * num / den` in seconds.
- **Picture** (`picture.dfy`): a frame as three byte planes with row strides.
  - `FillYuvImage` is `fill_yuv_image`, which paints the moving YUV 4:2:0 test pattern in place.
  - It is proved against `Painted`, a function describing the plane afterwards.
  - The lemmas give the byte at every pixel and show that no other byte changes.
- **Stream** (`stream.dfy`): the `OutputStream` class, with its `next_pts` field, encoder time base and reusable frame.
  - `GetVideoFrame`/`GetAudioFrame` are the generators `get_video_frame`/`get_audio_frame`: the horizon test against `STREAM_DURATION`, then stamping and advancing `next_pts`.
  - `WriteVideoFrame`/`WriteAudioFrame` are the writers. Each reports "done" exactly when its generator returned NULL.
  - The pure function `Generate` is the shared specification of one generator call.
- **Scheduler** (`scheduler.dfy`): the interleaving loop of `main`.
  - `Step`/`Run` specify the loop on values. `Mux` is the `while` loop over the two `OutputStream` objects, proved to make exactly the writer calls of `Run`.
  - Lemmas prove the selection rule (earliest stream first, ties to video) and termination.
  - They also prove that selected timestamps never decrease across both streams, and that a cleared flag stays cleared and its stream is never selected again.
  - Finally, each stream sees exactly the calls it would see alone: video gets frames 0 to 250 and then NULL.
- **Setup** (`setup.dfy`): the encoder parameters `add_stream` chooses.
  - A preferred value (44100 Hz, stereo) is taken from a zero-terminated support list.
  - Time bases are 1/sample_rate for audio and 1/25 for video.
  - The command line of `main`: usage failure, and the last-wins `-flags`/`-fflags` pair scan.

Design decisions:

- `write_frame` returns 1 only when `avcodec_receive_packet` reports end of stream. That only happens after the encoder was handed a NULL frame, so "the writer reports done" is modelled as "the stream's generator returned NULL". Encoding and packet writing are not modelled.
- The encoder time base each generator compares against is a parameter of the stream.
  - For video it is the 1/25 set by `add_stream`.
  - For audio it is set by the library when the encoder is opened, so the scheduler only requires it to be positive.
  - The audio frame's sample count (`frame_size`, or 10000 for variable-size encoders) is a parameter too.
  - On the audio stream, the model's one frame is the stream's `tmp_frame`: the frame `get_audio_frame` stamps and returns.
- The scheduler needs every active stream to have a positive time base and, for audio, a positive sample count. These are what make the loop finish. With an audio frame size of 0 the source never advances the audio `next_pts` (muxing.c line 530), so its loop selects audio forever.
- `STREAM_DURATION` is `10.0` but reaches `av_compare_ts` as an `int64_t`, so the horizon is the integer 10 seconds.
- Integers are unbounded. The bytes written by `fill_yuv_image` are reduced modulo 256, as the store into `uint8_t` does.

## Model

| member | source | states |
|---|---|---|
| Timestamps.CompareTs | official_examples/muxing.c:994-997 | the result is -1, 0 or 1. It is negative, zero or positive exactly when the first timestamp denotes an earlier, the same or a later instant than the second, in seconds |
| Stream.Generate | official_examples/muxing.c:774-780 | no frame exactly when next_pts * tb lies after 10 s, and then the clock is unchanged. Otherwise the frame carries the old next_pts, the clock advances by the step, and the time base is kept |
| Stream.GenerateShrinksBudget | official_examples/muxing.c:498-504 | producing a frame with a positive step strictly lowers the bound on frames the clock can still produce |
| Stream.OutputStream.constructor | official_examples/muxing.c:881 | a zero-initialised stream: next_pts is 0, and given a frame whose planes fit the picture size the stream is valid |
| Stream.OutputStream.GetVideoFrame | official_examples/muxing.c:767-841 | result and new next_pts are those of Generate with step 1. When a frame is returned it is the stream's frame, stamped with the old next_pts, and its planes hold the test pattern of frame number old next_pts. When NULL is returned, frame and planes are unchanged |
| Stream.OutputStream.GetAudioFrame | official_examples/muxing.c:489-534 | result and new next_pts are those of Generate with step nb_samples. When NULL is returned the frame is unchanged |
| Stream.OutputStream.WriteVideoFrame | official_examples/muxing.c:850-853 | done exactly when the clock was past the horizon. The clock moves as Generate says. When not done, the frame handed on is stamped with the old next_pts and its planes hold the pattern of that frame number. When done, frame and planes are unchanged |
| Stream.OutputStream.WriteAudioFrame | official_examples/muxing.c:544-601 | done exactly when the clock was past the horizon. The clock moves by nb_samples as Generate says. When not done, the frame is stamped with the old next_pts. When done, it is unchanged |
| Stream.VideoHorizon | official_examples/muxing.c:774-777 | with time base 1/25 the horizon refuses exactly the frame numbers above 250 |
| Picture.PaintedPixel | official_examples/muxing.c:741-752 | after painting, the byte at row y, column x holds the component's pattern value mod 256: x+y+3i for luma, 128+y+2i for Cb, 64+x+5i for Cr |
| Picture.PaintedUntouched | official_examples/muxing.c:734-754 | painting leaves every byte that is not at some (x, y) of the rectangle as it was |
| Picture.FillYuvImage | official_examples/muxing.c:723-755 | the luma plane is painted over width x height and both chroma planes over width/2 x height/2 with frame number i. Nothing else is changed |
| Picture.FillLuma | official_examples/muxing.c:734-743 | the luma loop nest leaves the luma plane equal to Painted of its old contents |
| Picture.FillChroma | official_examples/muxing.c:746-754 | the chroma loop nest leaves Cb and Cr equal to Painted of their old contents over the half-size rectangle |
| Scheduler.Step | official_examples/muxing.c:990-1003 | one iteration: only the selected stream's clock and flag may change, a flag only goes from set to clear, time bases and sample count are kept, and the variant drops (termination) |
| Scheduler.Run | official_examples/muxing.c:990-1003 | the loop run to completion ends with both encode flags clear, and the time bases are kept |
| Scheduler.StepSelection | official_examples/muxing.c:993-1002 | video is selected exactly when it is active and audio is inactive or the video timestamp is not later in seconds (ties go to video). Audio is selected only when active. The event carries the selected clock |
| Scheduler.StepDone | official_examples/muxing.c:998-1002 | the selected stream's flag is cleared exactly when its clock is past the horizon. Otherwise its next_pts advances by 1 (video) or nb_samples (audio) |
| Scheduler.StepNotLater | official_examples/muxing.c:993-997 | two successive iterations select instants that do not go back in time |
| Scheduler.RunTimeOrdered | official_examples/muxing.c:990-1003 | over a whole run the selected timestamps, taken in seconds, never decrease |
| Scheduler.RunSkipsInactive | official_examples/muxing.c:990-1003 | a stream whose flag is clear is never selected in the rest of the run |
| Scheduler.RunProjection | official_examples/muxing.c:990-1003 | the writer calls made on each active stream are exactly those it would see alone, and none are made on an inactive stream |
| Scheduler.AloneEvents | official_examples/muxing.c:528-530 | a stream alone is stamped next_pts + k * step on call k. Every call produces a frame except the last |
| Scheduler.AloneHorizon | official_examples/muxing.c:498-504 | a stream alone produces frames exactly while they start no later than 10 s. The final NULL comes at the first timestamp past it |
| Scheduler.VideoAlone | official_examples/muxing.c:837 | the video stream from 0 at 1/25 sees 252 calls: frames 0 to 250, then NULL at 251 |
| Scheduler.RunVideoFrames | official_examples/muxing.c:990-1003 | in any run whose video stream starts at 0 with time base 1/25, the video writer is called 252 times: frames 0 to 250, then NULL |
| Scheduler.RunDrains | official_examples/muxing.c:990-1003 | every stream that starts active is driven until its generator returns NULL, exactly once, and produced a frame on every earlier call |
| Scheduler.Mux | official_examples/muxing.c:990-1003 | the loop over the two stream objects makes exactly the writer calls of Run (each recorded from the call made: stream, next_pts before it, frame or NULL) and leaves both clocks where Run does |
| Setup.Terminator | official_examples/muxing.c:263 | the scan of a zero-terminated list stops at its first 0, and every earlier entry is non-zero |
| Setup.Prefer | official_examples/muxing.c:259-268 | with no list the preferred value is kept. With a list the result is the preferred value when it occurs before the terminator, and the list's first entry otherwise |
| Setup.PreferenceSupported | official_examples/muxing.c:272-282 | whenever the encoder lists any value, the chosen value is one of the listed ones |
| Setup.PreferenceIsPreferred | official_examples/muxing.c:259-268 | the preferred value is chosen exactly when there is no list, or it is listed, or it is the list's first entry |
| Setup.AddStream | official_examples/muxing.c:208-328 | fails exactly when no encoder is found. The stream is numbered after the existing ones, and the encoder uses global headers exactly when the format asks for them. Audio: first listed sample format or FLTP, 64 kb/s, preferred rate 44100 and layout stereo, time base 1/sample_rate. Video: 400 kb/s, 352x288, time base 1/25, GOP 12, YUV420P, 2 B-frames only for MPEG-2, macroblock decision 2 only for MPEG-1 |
| Setup.AudioTimeBasePositive | official_examples/muxing.c:286 | with non-negative listed rates, the audio time base 1/sample_rate is positive exactly when there is no list or the list is not empty |
| Setup.PairCount | official_examples/muxing.c:910 | the pairs scanned after the file name cover argv up to its last complete pair |
| Setup.ScannedKeys | official_examples/muxing.c:910-916 | an option key is set exactly when some scanned pair is a -flags or -fflags option naming it |
| Setup.ScannedLastWins | official_examples/muxing.c:910-916 | a key's value is the value of the last pair that sets it |
| Setup.ScannedKeysNamed | official_examples/muxing.c:912-914 | only the keys "flags" and "fflags" can be set |
| Setup.ParseCommandLine | official_examples/muxing.c:897-916 | fails (usage, exit status 1) exactly when there is no file name. Otherwise the file name is argv[1] and the options are those of the pair scan |

## Left out

- All libav calls:
  - encoder send and receive, packet rescaling and interleaved writing;
  - `avformat_alloc_output_context2` and the MPEG fallback, `avio_open`, header and trailer writing;
  - `av_dump_format` and `log_packet`.
  These are foreign library code. Their only effect on the model is the "NULL frame ⇒ writer reports done" rule.
- The `exit(1)` and `return 1` paths after failed allocations or library calls. These are library failures. `add_stream`'s missing encoder is the one error path the model keeps.
- The sine-wave synthesis in `get_audio_frame` (`sin`, `t`, `tincr`, `tincr2`). It is floating point, so the audio samples themselves are not modelled.
- The resampling in `write_audio_frame`: `swr_convert`, the `dst_nb_samples` assertion, `samples_count`, and the re-stamping of the converted frame with `av_rescale_q`. Both depend on the resampler's internal delay.
- The `sws_scale` branch of `get_video_frame`, for encoders whose pixel format is not YUV420P. `add_stream` always sets `STREAM_PIX_FMT` (YUV420P), so that branch is not modelled.
- `av_get_channel_layout_nb_channels` (the `channels` field). It is a library call. Note that `add_stream` calls it once before the layout is set and once after; only the final layout is modelled.
- `open_video`, `open_audio`, `alloc_picture`, `alloc_audio_frame` and `close_stream`. These are allocation and library setup. Frames and their planes are parameters of the model.
- How `main` decides `have_video`/`have_audio` from the guessed format's codec ids. These flags are parameters of `Mux`.
- `muxing/muxing.c`: a stub `main` that only prints two integers.
- Timestamps.CompareTs: `av_compare_ts` works on `int64_t` with a rescaling fallback when the products overflow. The model compares exactly over unbounded integers, which is what that function computes whenever it does not overflow.
- Stream.OutputStream.GetVideoFrame: `next_pts` is `int64_t`. The model does not bound it, because the horizon stops it at 251.
- Picture.FillYuvImage: the loops compute `x + y + i * 3` and the chroma values in `int` before storing. The model does not bound these sums; overflow would need frame numbers near 2^29.
- Picture.FillYuvImage: its two loop nests are the methods `FillLuma` and `FillChroma`, which it calls in the source's order.
- Setup.Prefer: an encoder whose list holds only the terminator makes the source choose 0, and so does the model. The resulting audio time base 1/0 is excluded by `AudioTimeBasePositive`'s conditions rather than rejected.
