# talk-sip-bridge, modelled and proved

talk-sip-bridge connects a telephone line (SIP and RTP) to a Nextcloud Talk room. This
project is a Dafny 4.11 model of its four cores and of what holds of them for every
input and every run. `dafny verify dfyconfig.toml` checks it.

- **The audio path to the phone.** `SourceBuffers` (a ring that is a bounded queue),
  `NoiseGates`, `Limiters` (one block of look-ahead, in exact reals), `MixModel` and
  `Mixers` (the sum, as a machine on values and as an object that changes in place),
  `Resampler` (a stream resampled in pieces is the stream resampled whole), `Rtp` and
  `MixPump` (whole packets, on a schedule).
- **The subscription negotiation.** `Subscription` is the state machine of one
  participant. `HumanAudio` is the step system around it: each stretch of code between
  two `await`s is atomic, what waits is in the state, and any of it may go on, or be lost
  to an exception, at any time.
- **SIP on a byte stream.** `Text` (Python's string operations), `Framing` (messages out
  of a stream), `Requests` and `Headers` (messages built, and read back), `Sdp`, `Foreign`
  and `ForeignSdp` (what other implementations write, however they space and spell it),
  `OutboundCall` (one INVITE with its retries and its end), `CallSlot` (the one call of a
  line and its audio sessions, at the granularity of its lock).
- **Key presses and room membership.** `Bytes`, `Dtmf`, `KeyPresses` (RFC 4733 from one
  end to the other), `InbandDtmf` (presses heard as sound), `RoomState`.

Where the source changes an object step by step, the model has a class with its fields,
and each method is tied to a function on values; the lemmas are about runs of that
function.

Things the code and its documentation promise that do not hold as they stand, each with
the input that shows it and the exact condition under which they do:

- The limiter's ceiling holds. A loud block followed by a quiet one leaves above it:
  `Limiters.CeilingExceeded`. Exactly when it holds: `Limiters.CeilingKeptIff`.
- A built message says where it ends. `Content-Length` counts characters, the reader counts
  bytes: `Requests.LetterCutShort`. Exactly when: `Requests.FramedIffAscii`.
- Giving up is said once (bridge/human_audio.py:264-268). It is reached and never said:
  `HumanAudio.GivingUpReached`, `HumanAudio.GivingUpNeverAnnounced`. Nor is it final:
  `Subscription.GivenUpUntilFrame`.
- A late duplicate of a challenge starts no second INVITE (bridge/sip_call.py:481-487). Only
  if it names a number: `OutboundCall.RepeatedChallenge`.
- An attempt hung up is withdrawn (bridge/sip_call.py:472-479). Not if a challenge crosses
  the hangup (`OutboundCall.RingsOn`). Exactly when: `OutboundCall.WithdrawnIff`. And its
  CANCEL repeats the INVITE outstanding, unless a retry is half done (`OutboundCall.TornCancel`).
  Exactly when: `OutboundCall.CancelsRepeatIff`.
- A call is announced as connected when its INVITE is answered. A 200 is told apart by its
  number alone (bridge/sip_call.py:500-501), so the far end's 200 to the CANCEL of a hangup
  passes for the answer: `OutboundCall.AnsweredAfterHangup`. Exactly when:
  `OutboundCall.ConnectedIff`, `OutboundCall.MisheardIff`. For the line this is
  `CallSlot.MissedCall`: the session is lost, and a timer started that nobody will stop.
- A call ended here is ended at the far end. Not if the answer crosses the hangup, which
  acknowledges it and sends no BYE: `OutboundCall.AnsweredAfterHangup`. Exactly when one is
  sent: `OutboundCall.EndedByByeIff`; when nothing more is: `OutboundCall.NobodysCallIsLeft`.
- The limit on a call's duration ends that call. A timer can end the next one instead: when
  its call ends while it is being answered (`CallSlot.LateTimerEndsNextCall`), when a hangup
  is about to cancel it as it expires (`CallSlot.HangUpGapEndsNextCall`), and when a BYE or a
  CANCEL gets the lock ahead of it (`CallSlot.ByeGapEndsNextCall`). Exactly when:
  `CallSlot.TimerEndsItsCallIff`, `CallSlot.StaleIff`.
- Every audio session is closed. Not that of a call picked up after a hangup
  (`CallSlot.MissedCall`), nor one whose call shares its Call-ID with an attempt
  (`CallSlot.DisplacedCall`). Exactly when: `CallSlot.OutOfReachIff`.
- A call placed that fails frees its line. Not if its audio session cannot be opened:
  `CallSlot.OpenFailureSticks`. Exactly when, and until when: `CallSlot.StuckIff`.
- Every press is heard. Not a key that comes in again within 0.4 s of itself, which the
  default pace of sending already does, nor a press that starts a whole turn of the 32-bit
  clock after its predecessor: `KeyPresses.MissedKeys`. Exactly when:
  `KeyPresses.KeysHeardIff`.

## Model

| member | source | states |
|---|---|---|
| Subscription.BudgetKept | bridge/subscription.py:109-173 | over any run of events the requests and rebuilds a machine issues are exactly its attempts, never more than the budget (the opening request is made even with none), and it gives up at most once |
| Subscription.AtMostOneStepCurrent | bridge/subscription.py:175-185 | of all the steps one machine ever issued at most one is still to be taken, and a giving up never is |
| Subscription.RepairsWait | bridge/subscription.py:136-173 | no repair is issued without the delay of its kind; only the opening request goes out at once |
| Subscription.StepsAreAskedFor | bridge/subscription.py:109-173 | over every run, from any machine: as many rebuilds as refusals heeded, as many requests as openings and missing publishers heeded, as many answers as offers taken up, as many givings up as either beyond the budget; a refusal about another generation asks for nothing |
| Subscription.ConnectingIff | bridge/subscription.py:116-159 | over every run a machine waits for audio exactly from when the answer to its newest offer was sent, no other answer counting, until an offer, a repair, a frame or the close |
| Subscription.StepsName | bridge/subscription.py:124-173 | an answer carries the session of its offer, and every repair a generation of its own |
| Subscription.GenerationsAdvance | bridge/subscription.py:124-173 | generations never go back, from any machine, over any run |
| Subscription.FlowingAbsorbs | bridge/subscription.py:116-163 | once audio flows no run of events without a close changes anything or yields a step |
| Subscription.ClosedIsFinal | bridge/subscription.py:153-163 | a closed machine never changes again and never acts |
| Subscription.GivenUpUntilFrame | bridge/subscription.py:124-163 | a machine that gave up stays so exactly until a frame or the close, and issues nothing either way |
| Subscription.Subscription.constructor | bridge/subscription.py:97-107 | a fresh machine is idle, with nothing spent |
| Subscription.Subscription.Begin | bridge/subscription.py:109-114 | the state and step of the machine the run lemmas are about |
| Subscription.Subscription.AnswerWasSent | bridge/subscription.py:116-122 | an answer counts only in its own generation |
| Subscription.Subscription.OfferArrived | bridge/subscription.py:124-134 | an offer is taken up unless the negotiation has ended, in a new generation |
| Subscription.Subscription.AnswerRefused | bridge/subscription.py:136-144 | a refusal about another generation is ignored, any other is a retry |
| Subscription.Subscription.PublisherMissing | bridge/subscription.py:146-151 | a missing publisher is a retry while something is under way |
| Subscription.Subscription.FrameArrived | bridge/subscription.py:153-159 | a frame settles every machine that is not closed |
| Subscription.Subscription.End | bridge/subscription.py:161-164 | the end of the call closes the machine from any state |
| Subscription.Subscription.TryAgain | bridge/subscription.py:166-173 | one more attempt out of the shared budget, or the end of it |
| HumanAudio.RequestsWithinBudget | bridge/human_audio.py:240-322 | in every interleaving of the tasks the requestoffer messages sent never exceed the attempts, nor the attempts the budget |
| HumanAudio.AnswerNamesNewestOffer | bridge/human_audio.py:324-343 | every subscribe answer sent names the newest offer accepted, with no offer and no retry since |
| HumanAudio.EachOfferAnsweredOnce | bridge/human_audio.py:324-343 | answers go out in the order of their offers, at most one for each |
| HumanAudio.NoWorkingConnectionReplaced | bridge/call_media.py:249-277 | a connection is replaced, by a re-offer or by a repair, only while none of this negotiation has delivered a frame |
| HumanAudio.GivingUpNeverAnnounced | bridge/human_audio.py:258-268 | the message for giving up is never printed: the step is dropped before its action is looked at |
| HumanAudio.GivingUpReached | bridge/human_audio.py:258-268 | as many refusals as there are attempts do lead to giving up, and still nothing is said |
| HumanAudio.RefusalReconnects | bridge/human_audio.py:240-322 | a refusal followed through while nothing is received opens a new connection and asks again, once |
| HumanAudio.WatchAsksAgain | bridge/human_audio.py:240-298 | a watch that runs out, followed through, asks again on the connection there is |
| HumanAudio.BeginningIsWatched | bridge/human_audio.py:167-298 | the beginning sends one request, and once that is on the wire its offer is watched for |
| HumanAudio.OfferIsAnswered | bridge/human_audio.py:324-343 | every offer taken up, followed through, is answered once - on the connection in use, or on a new one if that has answered before - and the machine waits for audio |
| HumanAudio.FrameSettles | bridge/call_media.py:249-277 | the first frame over any connection settles the negotiation |
| HumanAudio.StaleAnswerDropped | bridge/human_audio.py:324-343 | an answer whose offer is no longer the newest is dropped |
| HumanAudio.StaleWatchDropped | bridge/human_audio.py:288-298 | a watch for a generation that has passed does nothing |
| HumanAudio.UnlistedIsUnheard | bridge/human_audio.py:147-191 | a participant nobody listens to is not heard |
| HumanAudio.LostDoesNothing | bridge/human_audio.py:240-343 | a task lost to an exception has done nothing and does nothing more |
| HumanAudio.StoppedForGood | bridge/human_audio.py:147-165 | once listening has stopped, over any run no connection is opened and nothing is asked for beyond repairs already under way |
| HumanAudio.AfterKeeps | bridge/human_audio.py:167-343 | what every atomic stretch of code keeps: budget, spent attempts, heard is settled, answers match their offers |
| Resampler.StreamResampler.Process | bridge/media.py:72-90 | after any piece the output so far is the one-piece resampling of the input so far |
| Resampler.StreamResampler.constructor | bridge/media.py:65-70 | nothing heard, position at the first sample |
| Resampler.ResamplePieces | bridge/call_media.py:313-322 | a stream cut anywhere, empty pieces included, comes out as the stream resampled whole |
| Resampler.NoDrift | bridge/media.py:79-90 | after n samples the output ends within one output sample behind the last input sample, however large n is |
| Resampler.ResampledPrefix | bridge/media.py:72-90 | what was put out never changes when more arrives |
| Resampler.ResampledInRange | bridge/media.py:86-90 | every output sample lies within the range of the input, so the conversion to 16 bits never wraps |
| Resampler.ResampledOnLine | bridge/media.py:79-90 | every output sample lies on the line between the two input samples around it, in proportion to where it falls, with the fraction dropped towards zero, and is an input sample where it falls on one |
| Resampler.LineStaysLine | bridge/media.py:79-90 | a stream on a line comes out on that line |
| Resampler.PieceValues | bridge/media.py:75-90 | the values read off the carried sample and a piece continue the whole stream's |
| Resampler.PieceCount | bridge/media.py:78-89 | how many samples a piece yields and where it leaves the carried position |
| SourceBuffers.SourceBuffer.Write | bridge/mixer.py:103-125 | the ring after a write is the bounded queue after it: the last capacity samples, the others counted as dropped |
| SourceBuffers.SourceBuffer.Read | bridge/mixer.py:127-140 | sample i of a read is the i-th oldest that was held, or silence where there is none, across any wrap |
| SourceBuffers.SourceBuffer.Fetch | bridge/mixer.py:131-136 | the oldest samples in one piece or two, and the others kept |
| SourceBuffers.TakeIsOldest | bridge/mixer.py:127-140 | the bounded queue of a read: the oldest samples out, the others kept, an underrun counted where there were too few |
| SourceBuffers.PutIsNewest | bridge/mixer.py:103-125 | the bounded queue of a write: the newest samples that fit kept, every other one counted as dropped |
| SourceBuffers.SourceBuffer.Replace | bridge/mixer.py:105-113 | a write as large as the buffer replaces all of it |
| SourceBuffers.SourceBuffer.Append | bridge/mixer.py:120-125 | the copy in one or two pieces is the concatenation |
| SourceBuffers.SourceBuffer.constructor | bridge/mixer.py:95-101 | an empty queue of that capacity |
| SourceBuffers.SamplesAccounted | bridge/mixer.py:103-140 | over every run of writes and reads: samples written = handed out + held + dropped, what is held is the newest, and without drops what reads handed out, their padding aside, is what was written, in order |
| NoiseGates.NoiseGate.Passes | bridge/mixer.py:159-167 | one block moves the gate as the run lemma's machine |
| NoiseGates.OpenIffLatelyLoud | bridge/mixer.py:143-167 | over every run: open exactly when one of the last hold+1 blocks holds a sample as far from 0 as the threshold, on either side (the lowest 16-bit value aside, as numpy has it) |
| Limiters.Limiter.Apply | bridge/mixer.py:197-210 | a block in, the held one out on the ramp between two gains |
| Limiters.NextGainBounds | bridge/mixer.py:198-205 | the gain stays in (0, 1] and never exceeds what the newest block allows |
| Limiters.GainKept | bridge/mixer.py:197-206 | the same over every run, and the newest block is the one held |
| Limiters.RampsConnect | bridge/mixer.py:200-210 | every block leaves one block later on a ramp that starts at the gain the one before it ended on |
| Limiters.EmittedIs | bridge/mixer.py:206-210 | sample i of a held block leaves at the i-th of gains spread evenly between the two, kept within 16 bits and without its fraction |
| Limiters.GainIsHighest | bridge/mixer.py:198-205 | the gain is no lower than it must be: as high as the release lets it rise, or just what the loudest sample allows |
| Limiters.PeakIsLoudest | bridge/mixer.py:198 | the peak is the magnitude of the loudest sample, the lowest 32-bit value aside |
| Limiters.CeilingHeldIff | bridge/mixer.py:197-210 | one step, from any gain that was right for the block held: all blocks of that length and peak leave within the ceiling if and only if the next block's peak or length keeps the gain low enough (or the block is a single sample, or the ceiling beyond 16 bits), said before the step |
| Limiters.CeilingKeptIff | bridge/mixer.py:191-210 | the same over every run, whatever blocks have gone before |
| Limiters.CeilingExceeded | bridge/mixer.py:197-210 | with the source's own constants a loud block followed by silence leaves above the ceiling |
| Limiters.LouderSuccessorHoldsCeiling | bridge/mixer.py:197-210 | over every run, a block whose successor is as loud or louder leaves within the ceiling |
| Limiters.TransparentBelowCeiling | bridge/mixer.py:197-210 | while all blocks are within the ceiling the limiter is a delay of exactly one block |
| Limiters.ReleaseIsGeometric | bridge/mixer.py:203-205 | over blocks within the ceiling 1 - gain shrinks by the release of every sample that passes |
| Limiters.ShrunkIsPower | bridge/mixer.py:205 | that shrinking is multiplication by the power of the release |
| MixModel.ParticipantsTracked | bridge/mixer.py:232-269 | in every run a participant's queue and gate are what its own writes, its removal and the reads alone make them |
| MixModel.MixIsSumOfTracks | bridge/mixer.py:253-269 | in every run each sample of a read is the sum of the next blocks of the sources that were loud within the last hold+1 blocks |
| MixModel.OneSourceHeard | bridge/mixer.py:253-269 | with one source that is loud, a read hands that source's oldest samples to the limiter, one for one |
| MixModel.OutsAreLimited | bridge/mixer.py:253-269 | over every run what comes out is the sums of the reads, through one limiter |
| MixModel.Wraps | bridge/mixer.py:260-268 | a 32-bit sum differs from the sum meant by whole turns only |
| MixModel.InterleavingIrrelevant | bridge/mixer.py:246-269 | between two reads, any two interleavings that agree per participant lead to the same mixer |
| MixModel.LaterOutputSame | bridge/mixer.py:246-269 | and to the same output, whatever follows |
| MixModel.SumExact | bridge/mixer.py:253-268 | up to 65536 sources the 32-bit sum is the sum itself |
| MixModel.SumTakeOut | bridge/mixer.py:262-267 | the sum does not depend on the order of the sources |
| Mixers.Mixer.AddSource | bridge/mixer.py:232-239 | a source that is new starts empty and gated, one that is not stays as it is |
| Mixers.Mixer.RemoveSource | bridge/mixer.py:241-244 | the source and its gate are gone, the others untouched |
| Mixers.Mixer.WriteTo | bridge/mixer.py:246-251 | audio of an unknown key is not lost |
| Mixers.Mixer.Draw | bridge/mixer.py:263-266 | one source's next block, and whether its gate lets it in |
| Mixers.Mixer.SumUp | bridge/mixer.py:259-267 | the loop over the sources, in any order, computes the sum of the model |
| Mixers.Mixer.ReadNext | bridge/mixer.py:253-269 | one read is one read of the model, limiter included |
| Rtp.RtpSession.SendPcm | bridge/rtp.py:169-188 | one packet for each stretch of samples, numbered upwards by 1 and 160, the last one padded |
| Rtp.NumbersOnWire | bridge/rtp.py:180-188 | two successive audio packets carry the negotiated type and no marker, and read one number and one increment apart, across both wraps |
| Rtp.WholeChunks | bridge/rtp.py:172-176 | whole packets' worth of samples goes out without padding |
| Rtp.ChunksAreAll | bridge/rtp.py:172-176 | any samples go out in order, with silence behind them up to a whole packet and no further |
| Rtp.SoundedChunks | bridge/rtp.py:172-188 | the samples on the wire are the stretches, in order |
| Rtp.HeaderReadBack | bridge/rtp.py:178-185 | version 2 and nothing else in the first byte, the marker and the type in the second, and every number most significant byte first |
| Rtp.RtpSession.SendDtmf | bridge/rtp.py:190-222 | a press is refused without negotiation or for no key; otherwise its packets, numbers and clock are exactly these, also when its duration outgrows the field |
| Rtp.RtpSession.SendHeld | bridge/rtp.py:217-219 | a packet an interval for as long as the duration fits 16 bits |
| Rtp.RtpSession.SendEnds | bridge/rtp.py:220-221 | the end marker three times, under the same timestamp |
| Rtp.PressReads | bridge/rtp.py:209-221 | what each packet of a press reads as: the marker on the first alone, rising numbers, one timestamp, the key, its duration so far, the end on those behind its length |
| Rtp.PressLasts | bridge/rtp.py:202-207 | as many packets as whole intervals fit into the duration, one at least, each worth the whole samples of an interval |
| Rtp.StopsWhereItMust | bridge/rtp.py:209-219 | a press too long for its field stops at the last packet whose duration fits |
| Rtp.KeysAre | bridge/rtp.py:200-203 | the number each key goes by |
| Rtp.KeysHaveNumbers | bridge/rtp.py:200-203 | and every digit, star, hash and letter from A to D, large or small, is one |
| Dtmf.EventRoundTrip | bridge/dtmf.py:36-45 | an event payload is read back as its digit, end flag and duration, and no other event number reads as a digit |
| Dtmf.PayloadReads | bridge/dtmf.py:36-45 | any payload is read as RFC 4733 has it: the key, the top bit as the end whatever the volume below it, and the duration |
| Dtmf.DtmfEvents.Hear | bridge/dtmf.py:91-100 | one packet moves the receiver as the machine of the lemmas |
| KeyPresses.PressHeardOnce | bridge/rtp.py:257-277 | whatever arrives of a press, repeated or reordered, is made out as one digit at the time of its first packet, or none under the timestamp of the press before |
| KeyPresses.OthersPass | bridge/rtp.py:257-277 | a datagram of another type, too short, or of no key leaves the receiver as it is |
| KeyPresses.HeardExactly | bridge/dtmf.py:91-100 | exactly what is made out, and when, of any presses of which at least one packet arrives |
| Dtmf.DigitGuard.Accepts | bridge/dtmf.py:69-74 | one digit more, and whether it counts |
| Dtmf.AllCountIff | bridge/dtmf.py:55-74 | every digit of a run counts if and only if none comes again within the window of itself |
| KeyPresses.TypesAsSent | bridge/rtp.py:169-222 | with any audio ahead of it, the press of the end-to-end theorem and the numbers behind it are those send_pcm and send_dtmf leave |
| KeyPresses.PressesOnTimeline | bridge/rtp.py:204-222 | each press starts where the clock stands after the one before and the audio in between |
| KeyPresses.KeysHeardIff | bridge/rtp.py:190-305 | every string of keys is taken as typed if and only if no press starts a whole turn of the 32-bit clock after the one before and no key comes in again within the guard's window of itself |
| KeyPresses.MissedKeys | bridge/rtp.py:190-305 | a key typed twice at the default pace is taken once, and so is one typed again a whole turn later |
| MixPump.Pump | bridge/mix_pump.py:45-84 | for any blocks, codec and clock: sent samples and pending ones are the resampled mix, in whole packets without a gap in their numbers, pending is less than a packet; no block is read before it is due, and each is due an interval behind the one before unless that moment had been missed |
| MixPump.PumpBlock | bridge/mix_pump.py:61-69 | one turn of the loop keeps what was sent and what is pending |
| MixPump.SendWhole | bridge/mix_pump.py:66-69 | only whole packets are handed on, and the remainder is kept |
| MixPump.Pace | bridge/mix_pump.py:70-79 | the next block is due exactly an interval later if that is still to come, and from now on if not |
| MixPump.DueAtIsLinear | bridge/mix_pump.py:55-79 | block k is due k intervals after the start |
| InbandDtmf.Detector.Hear | bridge/dtmf_inband.py:157-178 | one block moves the detector as the machine of the theorem |
| InbandDtmf.DigitsAreLastingPresses | bridge/dtmf_inband.py:157-178 | for every stream the digits reported are the keys of the maximal presses of enough blocks, in order, once each |
| InbandDtmf.PressesFound | bridge/dtmf_inband.py:157-178 | every stream has such a division into maximal presses |
| RoomState.RoomCallState.Apply | bridge/room_state.py:80-112 | the loops compute the update, and what moved |
| RoomState.RoomCallState.OthersInCall | bridge/room_state.py:119-123 | who is in the call and not this bridge |
| RoomState.MovesAreTheDifference | bridge/room_state.py:107-112 | nobody enters and leaves at once, and membership after = before + entered - left |
| RoomState.UpdatedIs | bridge/room_state.py:80-105 | what is known of a session after an update: the last change that says something, else the last entry of the snapshot, else what was known before |
| RoomState.InCallIsLowestBit | bridge/room_state.py:107-112 | in the call exactly when the lowest bit of the flags is set |
| RoomState.ReportsAlternate | bridge/room_state.py:80-112 | over every run, snapshots and changes mixed, each session enters and leaves strictly by turns from its seeded membership |
| Framing.SplitMessages | bridge/sip_messages.py:164-195 | the nested loops take off a buffer what the recursion says, shrinking it every turn |
| Framing.SplitInChunks | bridge/sip_messages.py:164-195 | splitting what arrived and then the remainder with what follows is splitting it at once, wherever the cut is |
| Framing.ReadLoop | bridge/sip_transport.py:270-282 | the read loop, over any chunks up to the first empty one, delivers the messages and keeps the remainder of the whole stream |
| Framing.StreamSplits | bridge/sip_messages.py:164-195 | messages that end where they say, with keepalives anywhere between them, are split into exactly these |
| Framing.SplitReadsAll | bridge/sip_messages.py:164-195 | every buffer is keepalives, messages that end where they say, and an incomplete rest: nothing else is dropped or made up |
| Framing.HeaderEnd | bridge/sip_messages.py:184-187 | the first blank line, or none |
| Foreign.AnnouncesIff | bridge/sip_messages.py:152-156 | a line announces a length exactly when its name, space aside and in any letters, is content-length or l |
| Foreign.NoColonNoLength | bridge/sip_messages.py:153-154 | a line without a colon announces none |
| Foreign.LengthReads | bridge/sip_messages.py:155-160 | and the length is its digits, with any space around them; a plus sign and underscores are let through, anything else and anything negative counts as 0 |
| Foreign.BlockAnnounces | bridge/sip_messages.py:149-161 | a header block announces what its first length line says, wherever that stands |
| Foreign.BlockAnnouncesNothing | bridge/sip_messages.py:149-161 | and 0 without one |
| Foreign.ForeignIsFramed | bridge/sip_messages.py:164-195 | a message of any maker is taken whole exactly when as many bytes follow its blank line as that length line says |
| Foreign.OtherwiseIff | bridge/sip_messages.py:46-48 | a line gives a header its value exactly when its name, space aside and in any letters, is that header's |
| Foreign.FieldReads | bridge/sip_messages.py:36-54 | the value of a header is that of the last line with its name, in whatever letters and with whatever space |
| Foreign.MissingReads | bridge/sip_messages.py:36-54 | a header that is not there reads as nothing |
| Foreign.ViaReads | bridge/sip_messages.py:46-53 | each Via line, long or short, adds its value behind the others |
| Requests.EncodeLength | bridge/sip_requests.py:96 | UTF-8 keeps the length of ASCII and of nothing else |
| Requests.EncodedAsDefined | bridge/sip_requests.py:96 | every character is one to four bytes as RFC 3629 has it |
| Requests.BuiltEnds | bridge/sip_requests.py:83-96 | where the reader takes a built message to end: as far behind the blank line as the body has characters |
| Requests.FramedIffAscii | bridge/sip_requests.py:93-96 | a built message is read whole if and only if its body is ASCII, whatever blank lines the body holds |
| Requests.OthersAreCutShort | bridge/sip_requests.py:118-122 | otherwise it is cut short and its end begins the next message |
| Requests.LetterCutShort | bridge/sip_requests.py:93-96 | one accented letter leaves the last byte over |
| Requests.Arrives | bridge/sip_transport.py:270-282 | any sequence of built messages and pings, in any chunks, is delivered as exactly the messages built |
| Headers.ParseSipHeaders | bridge/sip_messages.py:36-54 | the loop over the lines stores what the recursion says |
| Headers.BuildResponse | bridge/sip_requests.py:99-122 | the list grown line by line is the response of the lemmas, encoded |
| Headers.ResponseEchoes | bridge/sip_requests.py:99-122 | a response to anything received carries every Via in order, From, Call-ID and CSeq, and the To with a tag, as parsing gives them back |
| Headers.ResponsePrints | bridge/sip_requests.py:99-122 | a response line by line: status, the Vias, From, To, Call-ID, CSeq, its own headers, the length, the body |
| Headers.TaggedIs | bridge/sip_requests.py:107-109 | the To gets a tag exactly when there is one to give and none in it |
| Headers.ViasPrint | bridge/sip_requests.py:111 | one Via line each, in order |
| Headers.ResponseIsFramed | bridge/sip_requests.py:99-122 | whatever the request's headers hold, the response is read whole exactly when its body is ASCII |
| Headers.RequestReadsBack | bridge/sip_requests.py:79-96 | a request is parsed back to its Via, From, To, Call-ID, and the number and method of its CSeq |
| Headers.RequestPrints | bridge/sip_requests.py:79-96 | a request line by line |
| Headers.RequestIsFramed | bridge/sip_requests.py:79-96 | and is read whole exactly when its body is ASCII |
| Headers.AnswerNamesRequest | bridge/sip_call.py:498-501 | the response to a request is read as answering its number and its method |
| Headers.AnsweredCseqIs | bridge/sip_call.py:499-501 | which CSeq is answered: the digits in front of the first space, and none where there is anything else |
| Headers.ParsedIsWellRead | bridge/sip_messages.py:40-54 | parsed values hold no line break and no space around them |
| Sdp.ParseOfferedPayloadTypes | bridge/sip_sdp.py:92-98 | the loop with its early return |
| Sdp.ParseSdpMediaAddress | bridge/sip_sdp.py:101-116 | the first connection line, the last audio line, and nothing if either is missing |
| Sdp.ParseTelephoneEventType | bridge/sip_sdp.py:136-147 | the first line that maps a number to telephone-event |
| ForeignSdp.LinesRead | bridge/sip_sdp.py:93 | a description is read line by line, whichever line breaks end its lines |
| ForeignSdp.TypesRead | bridge/sip_sdp.py:92-98 | the types offered are the numbers behind the third word of the first audio line, whatever the space between them |
| ForeignSdp.NumbersOfOne | bridge/sip_sdp.py:97 | a word counts as a type exactly when it is digits |
| ForeignSdp.AudioIff | bridge/sip_sdp.py:95 | a line is an audio line exactly when it begins so, space aside |
| ForeignSdp.HostReads | bridge/sip_sdp.py:110-111 | the host of a connection line is what stands in front of a slash, without space |
| ForeignSdp.ConnectionIff | bridge/sip_sdp.py:110 | a line is a connection line exactly when it begins so, space aside |
| ForeignSdp.PortReads | bridge/sip_sdp.py:112-115 | the port of an audio line is its second word, where that is digits |
| ForeignSdp.AddressReads | bridge/sip_sdp.py:101-116 | a description's address is the host of its first connection line with the port of its last audio line that names one, unless either is empty |
| ForeignSdp.NoAddress | bridge/sip_sdp.py:116 | and none where one of the two is missing |
| ForeignSdp.EventReads | bridge/sip_sdp.py:133-146 | a map names key presses exactly when its name does, in any letters |
| ForeignSdp.FirstEventCounts | bridge/sip_sdp.py:143-147 | the first such line decides |
| ForeignSdp.NoNumberNoEvent | bridge/sip_sdp.py:133-146 | nor does one without digits, or without space behind them |
| ForeignSdp.NoMapNoEvent | bridge/sip_sdp.py:133-146 | a line that begins otherwise names none |
| Sdp.OfferReadsBack | bridge/sip_sdp.py:44-59 | an offer is read back as its address (none for port 0), payload types in order and event number |
| Sdp.AnswerReadsBack | bridge/sip_sdp.py:62-84 | an answer likewise, with no event number where there was none |
| Sdp.OfferPrints | bridge/sip_sdp.py:44-59 | an offer line by line, with the codecs under the numbers and names of RFC 3551, and the relay's address where there is one |
| Sdp.AnswerPrints | bridge/sip_sdp.py:62-84 | an answer likewise, with the one codec and the caller's number for key presses |
| Sdp.ChosenIsCommon | bridge/sip_sdp.py:119-130 | a codec is chosen exactly when there is one in common: G.722 if offered, else the caller's first that is spoken |
| Sdp.ChosenAgain | bridge/sip_sdp.py:62-130 | choosing again from the printed answer gives the same codec if and only if key presses do not carry G.722's number beside another codec |
| Sdp.BridgesAgree | bridge/sip_sdp.py:44-147 | two bridges settle on G.722 and the offered event number |
| OutboundCall.Attempt.Follow | bridge/sip_call.py:555-613 | the worker's loop, over any responses and with whatever a hangup and the far end do between any two of its steps, is a run of the machine to its end; it hears the responses in order, up to the first that decides |
| OutboundCall.Attempt.Turn | bridge/sip_call.py:578-583 | one turn of the loop: one response, and for a challenge the next INVITE, with others in between |
| OutboundCall.Attempt.Hears | bridge/sip_call.py:481-505 | one response off the queue: dropped, answered with the next number, acknowledged, or passed over |
| OutboundCall.Attempt.Finish | bridge/sip_call.py:593-613 | behind the loop: an answered call is looked for, an unanswered one withdrawn if it is still the line's, a failed one leaves its line, with others in between |
| OutboundCall.Attempt.TakeBranch | bridge/sip_call.py:468 | a retry takes a fresh branch, a step behind its number |
| OutboundCall.Attempt.SendInvite | bridge/sip_call.py:446-450 | one INVITE under the number and branch of the attempt |
| OutboundCall.Attempt.Acknowledge | bridge/sip_call.py:452-456 | one ACK with the CSeq of the INVITE |
| OutboundCall.Attempt.Connect | bridge/sip_call.py:540-553 | the answered call is looked for, and announced whether or not it is there |
| OutboundCall.Attempt.TimeOut | bridge/sip_call.py:593-601 | what the worker finds under the lock once nothing more comes |
| OutboundCall.Attempt.GiveUp | bridge/sip_call.py:602-605 | the CANCEL of an unanswered call |
| OutboundCall.Attempt.Leave | bridge/sip_call.py:606-613 | a failed attempt frees its line |
| OutboundCall.Attempt.Take | bridge/sip_call.py:309-316 | a hangup takes the call under the lock, and nothing else yet |
| OutboundCall.Attempt.ReadBranch | bridge/sip_call.py:324-334 | the branch a CANCEL will carry is read off the attempt with no lock |
| OutboundCall.Attempt.SendHangup | bridge/sip_call.py:324-345 | a CANCEL with the branch that was read and the number as it is now, or a BYE |
| OutboundCall.Attempt.EndByPeer | bridge/sip_call.py:279-304 | a BYE or CANCEL of the far end takes the call off its line, and nothing is sent for it |
| OutboundCall.InvitesCountUp | bridge/sip_call.py:458-505 | in every run - lost, repeated, reordered responses, a hangup or the far end's BYE or CANCEL between any two steps - INVITEs are numbered 1, 2, 3, ... once each, with branches of their own, and each ACK has the number of the newest |
| OutboundCall.CancelsRepeatIff | bridge/sip_call.py:309-479 | over every run each CANCEL repeats number and branch of the newest INVITE if and only if no retry came in between a hangup's reading the attempt and its sending |
| OutboundCall.WithdrawnIff | bridge/sip_call.py:309-605 | over every run the newest INVITE is withdrawn if and only if, since it went out, the deadline passed with the call still the line's or a hangup sent a CANCEL that no retry had overtaken |
| OutboundCall.EndsOnce | bridge/sip_call.py:555-613 | in every run an attempt is told of once, as connected or as failed, and acknowledges at most one answer, exactly one if it connected |
| OutboundCall.EndedByByeIff | bridge/sip_call.py:309-345 | over every run at most one BYE is sent, and one is if and only if a hangup found the attempt connected and still the line's call and has got as far as sending |
| OutboundCall.NobodysCallIsLeft | bridge/sip_call.py:279-345 | once the call is nobody's and no hangup is under way - the far end has ended it, say - neither a BYE nor a CANCEL is ever sent, whatever comes |
| OutboundCall.HeldIff | bridge/sip_call.py:279-613 | over every run the call is the line's until a hangup takes it, the far end ends it, or the attempt fails and leaves, exactly |
| OutboundCall.HangupEnds | bridge/sip_call.py:309-345 | a hangup followed through ends what is connected with one BYE and withdraws anything else with one CANCEL of the INVITE that is out |
| OutboundCall.ConnectedIff | bridge/sip_call.py:500-584 | over every run an attempt is connected, or about to be, if and only if a 200 was taken for the answer to its INVITE, and it is announced exactly when it is connected |
| OutboundCall.MisheardIff | bridge/sip_call.py:498-584 | over every run with a far end that answers only what it was sent, that 200 answers the INVITE if and only if no 200 to the CANCEL of a hangup came while the attempt still waited; where one did, no BYE is ever sent |
| OutboundCall.CodeDecides | bridge/sip_call.py:500-594 | by the number of its code: 401 and 407 lead to the next INVITE, 200 is acknowledged and connects, every other code from 400 to 699 gets one ACK and ends the attempt at once, nothing else moves it; nor does what names another CSeq |
| OutboundCall.RefusalIsHeard | bridge/sip_call.py:481-594 | a status such as 486 with any words behind it, given to the newest INVITE, is heard as that and ends the attempt |
| OutboundCall.FailedIff | bridge/sip_call.py:585-613 | over every run an attempt has failed, and is told to have, if and only if a refusal was heard while it waited or its deadline ran out |
| OutboundCall.DeadlineEnds | bridge/sip_call.py:593-613 | at the deadline an attempt that is still the call of its line sends one CANCEL and any other nothing; either way it is told to have failed and frees its line |
| OutboundCall.RepeatsAreHarmless | bridge/sip_call.py:481-505 | repeating an answer that named its CSeq, at any later moment, changes nothing about the rest of the run |
| OutboundCall.RepeatedChallenge | bridge/sip_call.py:500-502 | a challenge heard twice is answered once if and only if it names a number |
| OutboundCall.RetryAnswersNewest | bridge/sip_call.py:458-505 | another INVITE is made out only for a challenge, and one that names a number names the newest INVITE |
| OutboundCall.RingsOn | bridge/sip_call.py:458-470 | a challenge that crosses a hangup is answered with an INVITE that nothing cancels |
| OutboundCall.TornCancel | bridge/sip_call.py:467-479 | a hangup between a retry's number and its branch sends a CANCEL that matches no INVITE |
| OutboundCall.AnsweredAfterHangup | bridge/sip_call.py:498-553 | after a hangup a 200 is acknowledged and announced as connected, the one that answers the hangup's own CANCEL no less than one that crossed it, and no BYE follows, whatever comes |
| OutboundCall.AnswerIsHeard | bridge/sip_call.py:495-501 | what the far end answers to request n is heard with its code, as an answer to n, whichever method the request had |
| CallSlot.EachSessionSomewhereOnce | bridge/sip_call.py:131-613 | in every interleaving each session opened is in exactly one place: with the call, an attempt or a hangup, closed once, or out of reach |
| CallSlot.AnsweredIff | bridge/sip_call.py:209-244 | over every run the sessions of incoming calls are exactly those that answering them opened |
| CallSlot.InboundConserved | bridge/sip_call.py:209-320 | a session opened by an answer is held by the call, owned by one hangup about to close it, closed once, or had its place taken |
| CallSlot.InboundNeverLost | bridge/sip_call.py:209-320 | where Call-IDs are not reused across directions, no place is ever taken: held, owned by one hangup about to close it, or closed exactly once |
| CallSlot.OutOfReachIff | bridge/sip_call.py:538-613 | over every run a session is out of reach if and only if its attempt was picked up after its call had gone, or an attempt ended under the Call-ID of the call that held it; every other one is held or closed, once |
| CallSlot.MissedCall | bridge/sip_call.py:538-553 | a call hung up while it rings and picked up all the same loses its session, and starts a timer that nobody will stop |
| CallSlot.DisplacedCall | bridge/sip_call.py:538-546 | a call that rings and is answered under the Call-ID of an attempt still running loses its session to it |
| CallSlot.OthersLeaveTheCall | bridge/sip_call.py:131-188 | an INVITE, BYE or CANCEL for another Call-ID changes nothing and is told 486; a re-INVITE changes at most where audio goes |
| CallSlot.AnsweredInCommon | bridge/sip_call.py:218-231 | an incoming call is answered with a codec both sides speak, or not at all |
| CallSlot.RunAsInvited | bridge/sip_call.py:131-152 | over every run a call that was rung is the one its INVITE named, with what that offered |
| CallSlot.SpokenAsAgreed | bridge/sip_call.py:159-546 | over every run the codec of the line's call and where its audio goes are what the two sides agreed on last; behind a relay it goes there |
| CallSlot.InvitesAreTold | bridge/sip_call.py:131-188 | what an INVITE is told in every run: 180 on a free line, 200 within the call while it offers the codec agreed on or none, 488 when it no longer does, 486 otherwise |
| CallSlot.TimerEndsItsCallIff | bridge/sip_call.py:257-318 | in every interleaving an expired timer ends the call it was set on if and only if no event let it go, one still running is on its call if and only if it was neither let go nor is being cancelled, and the timer on a call is always armed |
| CallSlot.CancellingIff | bridge/sip_call.py:309-318 | over every run a timer is about to be cancelled exactly from when a hangup takes its call until that hangup cancels it |
| CallSlot.StaleIff | bridge/sip_call.py:159-320 | exactly which events let a timer go, by what can be seen before each |
| CallSlot.StaleIffLetGo | bridge/sip_call.py:159-320 | and over every run: one is astray if and only if such an event has come |
| CallSlot.LateTimerEndsNextCall | bridge/sip_call.py:257-266 | a caller who hangs up between the answer and the start of its timer leaves one that ends the next call |
| CallSlot.HangUpGapEndsNextCall | bridge/sip_call.py:312-318 | so does a hangup whose timer expires before it is cancelled |
| CallSlot.ByeGapEndsNextCall | bridge/sip_call.py:279-288 | and a BYE that gets the lock ahead of a timer that has expired |
| CallSlot.AnswerCrossesBye | bridge/sip_call.py:209-288 | a call, its answer, and a BYE or the start of its timer reach those states |
| CallSlot.StuckIff | bridge/sip_call.py:279-613 | over every run a line is held by a call that nobody is placing if and only if the session of that call could not be opened and no hangup, no old timer and no BYE or CANCEL naming it has come since |
| CallSlot.OpenFailureSticks | bridge/sip_call.py:555-561 | a worker that cannot open its session leaves the line in that state |
| CallSlot.CallManager.HandleInvite | bridge/sip_call.py:131-157 | 180 and a ringing call, 486, or a re-answer |
| CallSlot.CallManager.Reanswer | bridge/sip_call.py:159-188 | 200 with the session kept, or 488 with the call as it was |
| CallSlot.CallManager.AnswerCall | bridge/sip_call.py:209-244 | the locked part of answering, its refusals included |
| CallSlot.CallManager.FinishAnswer | bridge/sip_call.py:257-264 | the timer is set on the call that was answered, if it is still there, and started either way |
| CallSlot.CallManager.DeclineCall | bridge/sip_call.py:268-277 | only a ringing call is declined |
| CallSlot.CallManager.HandleBye | bridge/sip_call.py:279-288 | the call it names is released, no other |
| CallSlot.CallManager.HandleCancel | bridge/sip_call.py:290-304 | likewise, answered or not |
| CallSlot.CallManager.TakeCall | bridge/sip_call.py:309-320 | a hangup takes the call, its timer and its session, once |
| CallSlot.CallManager.CloseTaken | bridge/sip_call.py:318-320 | what a hangup owns is closed |
| CallSlot.CallManager.CancelTaken | bridge/sip_call.py:316-317 | the timer a hangup took is cancelled, if it still can be |
| CallSlot.CallManager.Expire | bridge/sip_call.py:257-264 | a timer past its last look at whether it was cancelled |
| CallSlot.CallManager.Fire | bridge/sip_call.py:309-320 | and once it has the lock it hangs up whatever call there is |
| CallSlot.CallManager.DialOut | bridge/sip_call.py:434-443 | only a free line dials |
| CallSlot.CallManager.OpenSession | bridge/sip_call.py:555-561 | the worker's session is opened, or it is not and the worker is gone |
| CallSlot.CallManager.ConnectOutbound | bridge/sip_call.py:512-553 | the session of a call picked up goes to the call, if that is still there |
| CallSlot.CallManager.EndAttempt | bridge/sip_call.py:606-613 | an attempt that failed closes its session and frees the line if it is still its call |

## Left out

Weaker than the code, deliberately:

- Resampler.StreamResampler.Process: positions are exact fractions; the source's are 64-bit floats, whose rounding is not modelled.
- Limiters.Limiter.Apply: gains and ramps are real numbers; the source's ramp is in 32-bit floats.
- Mixers.Mixer.Draw: a participant's ring and gate are held as the values `SourceBuffer` and `NoiseGate` are proved to stand for, not as objects, so aliasing between them is not captured; sources are visited in any order, of which the source's sorted one is one.
- Rtp.RtpSession.SendPcm: a packet carries its samples; what a codec makes of them is not modelled.
- Rtp.RtpSession.SendDtmf: one ASCII character a call, with a payload type below 128; the pauses between packets are not modelled.
- MixPump.Pace: a sleep is assumed to last at least as long as it was asked to.
- KeyPresses.HeardExactly: packets are repeated, reordered and lost within a press; a packet of an earlier press that arrives after a later one is not covered.
- KeyPresses.KeysHeardIff: of the digits that come in as events; a tone or an INFO request that goes through the same guard in between is not part of the theorem.
- InbandDtmf.Detector.Hear: which key a block carries is an arbitrary function.
- HumanAudio.RequestsWithinBudget: about one machine; a restarted subscription installs a fresh one, and an old timer can match its numbers. Nothing is promised to happen after the answer was sent: if neither a frame nor a refusal comes, nothing retries.
- RoomState.RoomCallState.Apply: how a text reads as flags is a given.
- Framing.SplitMessages: header lines are read as bytes; space, case and digits beyond ASCII, and Python's limit on the digits of a number, are not modelled.
- Headers.ParseSipHeaders: likewise for space and case beyond ASCII.
- Sdp.ParseTelephoneEventType: digits and space beyond ASCII are not modelled.
- Sdp.ParseOfferedPayloadTypes: likewise.
- Sdp.ParseSdpMediaAddress: likewise.
- Sdp.AnswerReadsBack: for an advertised host without space, line breaks or a slash, as every address is.
- OutboundCall.Attempt.Follow: the values made up at random (branches, tags) never repeat; the credentials in a retry are not modelled, nor an exception out of the worker while it connects. A hangup that comes before the attempt is recorded on the call is the start with `held` false.
- CallSlot.CallManager.ConnectOutbound: what is sent on the way, the ACK above all, is modelled in OutboundCall and not here.
- CallSlot.CallManager.AnswerCall: opening the session of an incoming call does not fail; where it does, the call goes on ringing as it was.
- CallSlot.CallManager.Expire: a timer is cancelled or has expired, once; how long it runs is not modelled.

Not modelled:

- Sockets, threads, websockets, HTTP, WebRTC and the room's own protocol: what they do arrives as events, byte chunks or parameters.
- The codecs (bridge/g711.py, bridge/g722.py), gain control, the tone detection: enumerable domains or floating point.
- bridge/sip_registrar.py, bridge/control_api.py, bridge/config.py, bridge/daemon.py, the relay, name plates, dial-in prompts, message dictionaries: many small claims without a deep invariant.
- The pacing of bridge/media.py's SipAudioTrack and its jitter queue: wall-clock arithmetic with counters for a report.
- Switching the codec of a session in use, INFO requests, the dialling allowlist, the answer to a BYE: they would add easy members only.
- Conformance to sections 12.2.1.1 and 17.1.1.3 of RFC 3261: a BYE always carries CSeq 2, and a challenge is not acknowledged.
